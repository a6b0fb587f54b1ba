/** Validation issues as the zod object schemas report them. A schema is a
    list of fields, each with a chain of rules; every rule of a chain runs
    (none of the chains here stops early), and issues are listed field by
    field in the order the schema declares its keys. Each schema names its
    keys and its messages with enumerations of its own, and gives the
    message texts as a separate function. */
module Issues {

  datatype Issue<F, M> = Issue(field: F, message: M)

  /** One rule of a chain: the message it reports when the value fails it. */
  datatype Rule<M> = Rule(passes: bool, message: M)

  /** The messages of the failing rules, in chain order. */
  function Failing<M>(rules: seq<Rule<M>>): (r: seq<M>)
    ensures |r| <= |rules|
    ensures r == [] <==> forall i :: 0 <= i < |rules| ==> rules[i].passes
  {
    if rules == [] then []
    else (if rules[0].passes then [] else [rules[0].message]) + Failing(rules[1..])
  }

  /** A chain of one or two rules reports nothing exactly when each passes. */
  lemma FailingShort<M>(r1: Rule<M>, r2: Rule<M>)
    ensures Failing([r1]) == [] <==> r1.passes
    ensures Failing([r1, r2]) == [] <==> r1.passes && r2.passes
  {
    assert [r1, r2][0] == r1 && [r1, r2][1] == r2;
  }

  /** The issues of one field, all tagged with that field. */
  function FieldIssues<F, M>(field: F, messages: seq<M>): (r: seq<Issue<F, M>>)
    ensures |r| == |messages|
    ensures forall i :: 0 <= i < |r| ==> r[i] == Issue(field, messages[i])
  {
    seq(|messages|, i requires 0 <= i < |messages| => Issue(field, messages[i]))
  }

  /** The issues of a whole object schema: each key's messages in key order. */
  function ObjectIssues<F, M>(keys: seq<F>, messages: F -> seq<M>): seq<Issue<F, M>> {
    if keys == [] then []
    else FieldIssues(keys[0], messages(keys[0])) + ObjectIssues(keys[1..], messages)
  }

  /** One key's issues come before the remaining keys' issues. */
  lemma ObjectIssuesStep<F, M>(keys: seq<F>, messages: F -> seq<M>, rest: seq<Issue<F, M>>)
    requires keys != [] && ObjectIssues(keys[1..], messages) == rest
    ensures ObjectIssues(keys, messages) == FieldIssues(keys[0], messages(keys[0])) + rest
  {
  }

  lemma FieldIssuesSmall<F, M>(field: F, m: M)
    ensures FieldIssues<F, M>(field, []) == []
    ensures FieldIssues(field, [m]) == [Issue(field, m)]
  {
  }

  predicate Distinct<F(==)>(keys: seq<F>) {
    forall i, j :: 0 <= i < j < |keys| ==> keys[i] != keys[j]
  }

  /** The messages reported for one field, in order: what the form shows
      under that field. */
  function MessagesAt<F(==), M>(issues: seq<Issue<F, M>>, field: F): (r: seq<M>)
    ensures |r| <= |issues|
    ensures forall i :: 0 <= i < |r| ==> Issue(field, r[i]) in issues
    ensures forall j :: 0 <= j < |issues| && issues[j].field == field ==> issues[j].message in r
  {
    if issues == [] then []
    else
      (if issues[0].field == field then [issues[0].message] else [])
      + MessagesAt(issues[1..], field)
  }

  lemma {:induction false} MessagesAtConcat<F, M>(a: seq<Issue<F, M>>, b: seq<Issue<F, M>>, field: F)
    ensures MessagesAt(a + b, field) == MessagesAt(a, field) + MessagesAt(b, field)
  {
    if a == [] {
      assert a + b == b;
    } else {
      assert (a + b)[0] == a[0];
      assert (a + b)[1..] == a[1..] + b;
      MessagesAtConcat(a[1..], b, field);
    }
  }

  lemma {:induction false} MessagesAtField<F, M>(field: F, messages: seq<M>, other: F)
    ensures MessagesAt(FieldIssues(field, messages), other) == if field == other then messages else []
  {
    var issues := FieldIssues(field, messages);
    if messages != [] {
      var head: seq<M> := if field == other then [messages[0]] else [];
      assert issues[0] == Issue(field, messages[0]);
      assert issues[1..] == FieldIssues(field, messages[1..]);
      assert MessagesAt(issues, other) == head + MessagesAt(issues[1..], other);
      MessagesAtField(field, messages[1..], other);
      assert messages == [messages[0]] + messages[1..];
    }
  }

  lemma DistinctTail<F>(keys: seq<F>)
    requires keys != [] && Distinct(keys)
    ensures Distinct(keys[1..]) && keys[0] !in keys[1..]
  {
    forall j | 0 <= j < |keys[1..]| ensures keys[1..][j] != keys[0] {
      assert keys[1..][j] == keys[j + 1];
    }
  }

  /** A schema with distinct keys reports, for each of its keys, exactly the
      messages of that key's rules. */
  lemma {:induction false} MessagesAtObject<F, M>(keys: seq<F>, messages: F -> seq<M>, field: F)
    requires Distinct(keys)
    ensures MessagesAt(ObjectIssues(keys, messages), field) == if field in keys then messages(field) else []
  {
    if keys != [] {
      var head := FieldIssues(keys[0], messages(keys[0]));
      var tail := ObjectIssues(keys[1..], messages);
      assert ObjectIssues(keys, messages) == head + tail;
      MessagesAtConcat(head, tail, field);
      MessagesAtField(keys[0], messages(keys[0]), field);
      DistinctTail(keys);
      MessagesAtObject(keys[1..], messages, field);
      assert field in keys <==> field == keys[0] || field in keys[1..] by {
        assert keys == [keys[0]] + keys[1..];
      }
      if field == keys[0] {
        assert field !in keys[1..];
        assert MessagesAt(head, field) == messages(field);
        assert MessagesAt(tail, field) == [];
      } else {
        assert MessagesAt(head, field) == [];
        assert MessagesAt(tail, field) == if field in keys[1..] then messages(field) else [];
      }
    }
  }

  /** A schema reports nothing exactly when every key's rules pass. */
  lemma {:induction false} ObjectIssuesEmpty<F, M>(keys: seq<F>, messages: F -> seq<M>)
    ensures ObjectIssues(keys, messages) == [] <==> forall i :: 0 <= i < |keys| ==> messages(keys[i]) == []
  {
    if keys != [] {
      ObjectIssuesEmpty(keys[1..], messages);
      if messages(keys[0]) == [] {
        assert forall i :: 1 <= i < |keys| ==> keys[i] == keys[1..][i - 1];
      }
    }
  }

  /** For a schema that lists every key, it reports nothing exactly when
      no key has a message. */
  lemma ObjectIssuesEmptyAll<F, M>(keys: seq<F>, messages: F -> seq<M>)
    requires forall f :: f in keys
    ensures ObjectIssues(keys, messages) == [] <==> forall f :: messages(f) == []
  {
    ObjectIssuesEmpty(keys, messages);
    if ObjectIssues(keys, messages) == [] {
      forall f ensures messages(f) == [] {
        assert f in keys;
        var i :| 0 <= i < |keys| && keys[i] == f;
      }
    }
  }

  /** Two rule sets that agree on every key give the same issues. */
  lemma {:induction false} ObjectIssuesPointwise<F, M>(keys: seq<F>, m1: F -> seq<M>, m2: F -> seq<M>)
    requires forall i :: 0 <= i < |keys| ==> m1(keys[i]) == m2(keys[i])
    ensures ObjectIssues(keys, m1) == ObjectIssues(keys, m2)
  {
    if keys != [] {
      ObjectIssuesPointwise(keys[1..], m1, m2);
    }
  }
}
