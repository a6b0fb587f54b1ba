/** The postal-code (CEP) validator of `src/utils/validateCEP.ts`. The ViaCEP
    request is an oracle: a function from the lookup key to the reply's
    `erro` flag, or to nothing when `fetch` or `response.json()` rejects. */
module Cep {
  import opened Wrappers
  import opened Text

  /** `cep.split('-').join('')`: every hyphen removed, every other
      character kept in order. */
  function CleanCep(cep: string): (r: string)
    ensures r == Without(cep, '-')
    ensures '-' !in r
  {
    SplitJoinEmptyIsWithout(cep, '-');
    Join(Split(cep, '-'), [])
  }

  /** What the offline part of the validator decides: reject outright, or
      ask the lookup service about a key. */
  datatype PreCheck = ShortCircuit | Lookup(key: string)

  /** The offline pre-check: the lookup key is the input with every hyphen
      removed and nothing else touched, and only keys of 8 or more UTF-16
      code units (JavaScript's `length`) reach the lookup. There is no upper
      bound and no digit test. */
  function CepPreCheck(cep: string): (p: PreCheck)
    ensures p.Lookup? <==> Utf16Length(Without(cep, '-')) >= 8
    ensures p.Lookup? ==> p.key == Without(cep, '-')
  {
    var cleaned := CleanCep(cep);
    if Utf16Length(cleaned) < 8 then ShortCircuit else Lookup(cleaned)
  }

  /** `validateCEP` once the lookup has answered, with `erro` standing for
      the reply: the CEP is valid when the service does not flag the key as
      an error. */
  function ValidateCep(cep: string, erro: string -> bool): (ok: bool)
    ensures Utf16Length(Without(cep, '-')) < 8 ==> !ok
    ensures Utf16Length(Without(cep, '-')) >= 8 ==> ok == !erro(Without(cep, '-'))
  {
    match CepPreCheck(cep)
    case ShortCircuit => false
    case Lookup(key) => !erro(key)
  }

  /** The whole promise `validateCEP` returns, with `lookup` answering the
      reply's `erro` flag for a key, or `None` when the request or the JSON
      decoding rejects. The promise rejects (`None`) exactly when the key is
      long enough to be looked up and the lookup rejects; otherwise it
      resolves with the verdict. */
  function ValidateCepAsync(cep: string, lookup: string -> Option<bool>): (r: Option<bool>)
    ensures r.None? <==> Utf16Length(Without(cep, '-')) >= 8 && lookup(Without(cep, '-')).None?
    ensures Utf16Length(Without(cep, '-')) < 8 ==> r == Some(false)
    ensures r.Some? && Utf16Length(Without(cep, '-')) >= 8 ==> r == Some(!lookup(Without(cep, '-')).value)
  {
    match CepPreCheck(cep)
    case ShortCircuit => Some(false)
    case Lookup(key) =>
      match lookup(key)
      case None => None
      case Some(erro) => Some(!erro)
  }

  /** When the lookup answers every key, the promise resolves with the
      verdict of `ValidateCep`. */
  lemma AnsweringLookupResolves(cep: string, erro: string -> bool)
    ensures ValidateCepAsync(cep, k => Some(erro(k))) == Some(ValidateCep(cep, erro))
  {
  }

  /** A key ViaCEP answers with its 400 page (nine digits, say) is not
      JSON, so the promise rejects instead of resolving with `false`. */
  lemma MalformedKeyRejects(lookup: string -> Option<bool>)
    requires lookup("123456789") == None
    ensures ValidateCepAsync("123456789", lookup) == None
  {
    UnhyphenatedKey("123456789");
  }

  /** A short CEP is rejected without consulting the lookup: any two
      lookups give the same answer. */
  lemma ShortCepIgnoresLookup(cep: string, erro1: string -> bool, erro2: string -> bool)
    requires Utf16Length(Without(cep, '-')) < 8
    ensures ValidateCep(cep, erro1) == ValidateCep(cep, erro2) == false
  {
  }

  /** The validator only depends on the lookup's answer for the one key. */
  lemma ValidateCepConsultsOnlyTheKey(cep: string, erro1: string -> bool, erro2: string -> bool)
    requires erro1(Without(cep, '-')) == erro2(Without(cep, '-'))
    ensures ValidateCep(cep, erro1) == ValidateCep(cep, erro2)
  {
  }

  /** Hyphens can be added anywhere without changing the key. */
  lemma HyphenDoesNotMatter(a: string, b: string)
    ensures CepPreCheck(a + "-" + b) == CepPreCheck(a + b)
  {
    var hyphenated := a + "-" + b;
    assert Without(a + "-", '-') == Without(a, '-') by {
      WithoutConcat(a, "-", '-');
      assert Without("-", '-') == [];
    }
    assert Without(hyphenated, '-') == Without(a, '-') + Without(b, '-') by {
      WithoutConcat(a + "-", b, '-');
    }
    WithoutConcat(a, b, '-');
    SameKeySamePreCheck(hyphenated, a + b);
  }

  lemma SameKeySamePreCheck(x: string, y: string)
    requires Without(x, '-') == Without(y, '-')
    ensures CepPreCheck(x) == CepPreCheck(y)
  {
  }

  /** A text without hyphens is its own key. */
  lemma UnhyphenatedKey(cep: string)
    requires '-' !in cep && Utf16Length(cep) >= 8
    ensures CepPreCheck(cep) == Lookup(cep)
  {
    WithoutAbsent(cep, '-');
  }

  /** `1234-567` has eight characters but only seven once the hyphen goes,
      so it is rejected offline. */
  lemma EightCharactersWithHyphenShortCircuit()
    ensures CepPreCheck("1234-567") == ShortCircuit
  {
    var key := "1234567";
    HyphenDoesNotMatter("1234", "567");
    assert "1234" + "-" + "567" == "1234-567" && "1234" + "567" == key;
    assert '-' !in key;
    WithoutAbsent(key, '-');
    Utf16LengthBmp(key);
  }

  /** So the CEP `1234-567` is rejected whatever the lookup says. */
  lemma HyphenatedSevenDigitsRejected(erro: string -> bool)
    ensures !ValidateCep("1234-567", erro)
  {
    EightCharactersWithHyphenShortCircuit();
  }

  /** Six digits followed by one astral character already make the eight
      code units the length test asks for, so such a text reaches the
      lookup with seven characters. */
  lemma AstralCharacterCountsTwice()
    ensures CepPreCheck("123456\U{1F600}") == Lookup("123456\U{1F600}")
  {
    var t := "123456\U{1F600}";
    assert Utf16Length(t) == 8 by {
      Utf16LengthConcat("123456", "\U{1F600}");
      Utf16LengthBmp("123456");
    }
    UnhyphenatedKey(t);
  }
}
