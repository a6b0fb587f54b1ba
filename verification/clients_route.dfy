/** The clients screen of `src/routes/clients.tsx`: the list lives in
    React state, starts from `localStorage['clients']`, is written back
    after every change, and grows by one on each create. `Date.now()`,
    `JSON.parse` and `JSON.stringify` are parameters. */
module ClientsRoute {
  import opened Wrappers
  import opened Json
  import opened AuthStorage

  const ClientsKey: string := "clients"

  /** The screen's state. `clients` holds whatever the stored text parsed
      to, which is an array once the screen has created a client. */
  datatype ClientsScreen = ClientsScreen(clients: Json, dialogOpen: bool, local: Store)

  /** The lazy initial state: `[]` when nothing (or an empty string) is
      stored, else the stored text parsed, whatever value it holds. A text
      that does not parse throws (`Failure`). */
  function InitialClients(local: Store, parse: string -> Option<Json>): (r: Result<Json, string>)
    ensures ClientsKey !in local || local[ClientsKey] == "" ==> r == Success(JArr([]))
    ensures ClientsKey in local && local[ClientsKey] != "" ==>
      (r.Success? <==> parse(local[ClientsKey]).Some?) && (r.Success? ==> r.value == parse(local[ClientsKey]).value)
  {
    if ClientsKey !in local || local[ClientsKey] == "" then Success(JArr([]))
    else match parse(local[ClientsKey])
      case Some(v) => Success(v)
      case None => Failure("SyntaxError")
  }

  /** The first render: the lazy initial state, the dialog closed, and
      the `[clients]` effect's first run, which writes that state back. */
  function Mount(local: Store, parse: string -> Option<Json>, stringify: Json -> string): (r: Result<ClientsScreen, string>)
    ensures r.Success? <==> InitialClients(local, parse).Success?
    ensures r.Success? ==> r.value.clients == InitialClients(local, parse).value && !r.value.dialogOpen
    ensures r.Success? ==> ClientsKey in r.value.local && r.value.local[ClientsKey] == stringify(r.value.clients)
    ensures r.Success? ==> SameExcept(r.value.local, local, ClientsKey, ClientsKey)
  {
    match InitialClients(local, parse)
    case Failure(e) => Failure(e)
    case Success(v) => Success(Persist(ClientsScreen(v, false, local), stringify))
  }

  /** The characters of a string, each as a one-character string. */
  function Characters(s: string): (r: seq<Json>)
    ensures |r| == |s|
    ensures forall i :: 0 <= i < |s| ==> r[i] == JStr([s[i]])
  {
    if s == [] then [] else [JStr([s[0]])] + Characters(s[1..])
  }

  /** `[...v]`: an array gives its items and a string its characters; any
      other value is not iterable and throws a `TypeError`. */
  function Spread(v: Json): (r: Result<seq<Json>, string>)
    ensures r.Success? <==> v.JArr? || v.JStr?
    ensures v.JArr? ==> r == Success(v.items)
    ensures v.JStr? ==> r == Success(Characters(v.s))
  {
    match v
    case JArr(items) => Success(items)
    case JStr(text) => Success(Characters(text))
    case _ => Failure("TypeError")
  }

  /** The effect on `clients`: the value is written back. */
  function Persist(s: ClientsScreen, stringify: Json -> string): (r: ClientsScreen)
    ensures ClientsKey in r.local && r.local[ClientsKey] == stringify(s.clients)
    ensures SameExcept(r.local, s.local, ClientsKey, ClientsKey)
    ensures r.clients == s.clients && r.dialogOpen == s.dialogOpen
  {
    s.(local := s.local[ClientsKey := stringify(s.clients)])
  }

  /** `{...client, id: Date.now(), ativo: true}`. */
  function NewClient(client: map<string, Json>, now: real): (c: Json)
    ensures c.JObj? && "id" in c.fields && c.fields["id"] == JNum(now)
    ensures "ativo" in c.fields && c.fields["ativo"] == JBool(true)
    ensures forall k :: k in client && k != "id" && k != "ativo" ==> k in c.fields && c.fields[k] == client[k]
    ensures forall k :: k in c.fields ==> k in client || k == "id" || k == "ativo"
  {
    JObj(client["id" := JNum(now)]["ativo" := JBool(true)])
  }

  /** `handleCreate` followed by the write-back: the spread list with one
      more client at the end, the dialog closed, and the store holding the
      new list. Spreading a value that is neither an array nor a string
      throws, and the screen stays as it was. */
  function Create(s: ClientsScreen, client: map<string, Json>, now: real, stringify: Json -> string): (r: Result<ClientsScreen, string>)
    ensures r.Success? <==> Spread(s.clients).Success?
    ensures r.Success? ==> var before := Spread(s.clients).value;
      r.value.clients.JArr? && |r.value.clients.items| == |before| + 1
      && r.value.clients.items[..|before|] == before && r.value.clients.items[|before|] == NewClient(client, now)
    ensures r.Success? ==> !r.value.dialogOpen && ClientsKey in r.value.local
    ensures r.Success? ==> r.value.local[ClientsKey] == stringify(r.value.clients)
  {
    match Spread(s.clients)
    case Failure(e) => Failure(e)
    case Success(before) =>
      Success(Persist(s.(clients := JArr(before + [NewClient(client, now)]), dialogOpen := false), stringify))
  }

  /** What a create writes, the next visit reads back, when parsing undoes
      serialisation and the serialised list is not empty text. */
  lemma CreateSurvivesReload(s: ClientsScreen, client: map<string, Json>, now: real,
                             stringify: Json -> string, parse: string -> Option<Json>)
    requires s.clients.JArr?
    requires var list := JArr(s.clients.items + [NewClient(client, now)]);
      parse(stringify(list)) == Some(list) && stringify(list) != ""
    ensures var r := Create(s, client, now, stringify);
      r.Success? && InitialClients(r.value.local, parse) == Success(r.value.clients)
  {
  }

  /** A stored JSON string is spread into its characters by the first
      create, each becoming a client of its own. */
  lemma StoredStringSpreadsIntoCharacters(local: Store, parse: string -> Option<Json>, dialogOpen: bool,
                                          client: map<string, Json>, now: real, stringify: Json -> string)
    requires ClientsKey in local && local[ClientsKey] != "" && parse(local[ClientsKey]) == Some(JStr("ab"))
    ensures InitialClients(local, parse) == Success(JStr("ab"))
    ensures var r := Create(ClientsScreen(JStr("ab"), dialogOpen, local), client, now, stringify);
      r.Success? && r.value.clients == JArr([JStr("a"), JStr("b"), NewClient(client, now)])
  {
    assert Characters("ab") == [JStr("a"), JStr("b")];
  }

  /** A stored `null`, number, boolean or plain object loads without
      complaint and makes the first create throw. */
  lemma StoredObjectFailsAtCreate(s: ClientsScreen, client: map<string, Json>, now: real, stringify: Json -> string)
    requires !s.clients.JArr? && !s.clients.JStr?
    ensures Create(s, client, now, stringify).Failure?
  {
  }

  /** With nothing stored, the first render already writes the serialised
      empty list. */
  lemma MountWritesEmptyList(local: Store, parse: string -> Option<Json>, stringify: Json -> string)
    requires ClientsKey !in local
    ensures var r := Mount(local, parse, stringify);
      r.Success? && r.value.clients == JArr([]) && r.value.local[ClientsKey] == stringify(JArr([]))
  {
  }

  /** Mounting again over what a mount wrote changes nothing, when parsing
      undoes serialisation and the serialised state is not empty text. */
  lemma RemountIsStable(local: Store, parse: string -> Option<Json>, stringify: Json -> string)
    requires InitialClients(local, parse).Success?
    requires var v := InitialClients(local, parse).value;
      parse(stringify(v)) == Some(v) && stringify(v) != ""
    ensures var r := Mount(local, parse, stringify);
      r.Success? && Mount(r.value.local, parse, stringify) == r
  {
    var r := Mount(local, parse, stringify);
    assert r.value.local[ClientsKey := stringify(r.value.clients)] == r.value.local;
  }
}
