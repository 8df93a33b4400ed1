/** Header lists and their redaction for logging.

    A header collection is an ordered list of (name, value) entries; a name may
    occur several times. Redaction removes every entry whose name is excluded,
    one excluded name at a time, as `Headers.Builder.removeAll` is called once
    per configured name. Names are compared by exact string equality. */
module Headers {
  import opened Wrappers

  datatype Header = Header(name: string, value: string)

  /** The set of names a (possibly null) exclusion list mentions. */
  function Excluded(names: Option<seq<string>>): (s: set<string>)
    ensures forall n :: n in s <==> names.Some? && n in names.value
  {
    match names
    case None => {}
    case Some(ns) => set n | n in ns
  }

  /** Reference definition: the entries of `hs` whose name is not in `drop`,
      in their original order. */
  function Keep(hs: seq<Header>, drop: set<string>): seq<Header>
  {
    if |hs| == 0 then []
    else if hs[0].name in drop then Keep(hs[1..], drop)
    else [hs[0]] + Keep(hs[1..], drop)
  }

  /** Removes every entry called `name`, all occurrences, keeping the rest in
      order and with their multiplicity. */
  function RemoveAll(hs: seq<Header>, name: string): (r: seq<Header>)
    ensures r == Keep(hs, {name})
    ensures |r| <= |hs|
    ensures forall h :: h in r <==> h in hs && h.name != name
  {
    if |hs| == 0 then []
    else if hs[0].name == name then RemoveAll(hs[1..], name)
    else [hs[0]] + RemoveAll(hs[1..], name)
  }

  /** Calls `RemoveAll` once per name, in list order: the result is one
      filter by membership in the list, whatever the order of the names. */
  function RemoveEach(hs: seq<Header>, names: seq<string>): (r: seq<Header>)
    ensures r == Keep(hs, set n | n in names)
    decreases |names|
  {
    if |names| == 0 then
      assert (set n | n in names) == {};
      KeepNothing(hs);
      hs
    else
      var r := RemoveEach(RemoveAll(hs, names[0]), names[1..]);
      KeepKeep(hs, {names[0]}, set n | n in names[1..]);
      assert {names[0]} + (set n | n in names[1..]) == (set n | n in names) by {
        assert names == [names[0]] + names[1..];
      }
      r
  }

  /** The redacted copy handed to a delegate: a null or empty exclusion list
      leaves the headers as they are, otherwise every listed name is removed. */
  function Redact(hs: seq<Header>, names: Option<seq<string>>): (r: seq<Header>)
    ensures r == Keep(hs, Excluded(names))
  {
    if names.Some? && |names.value| > 0 then
      RemoveEach(hs, names.value)
    else
      assert Excluded(names) == {};
      KeepNothing(hs);
      hs
  }

  // ---------------------------------------------------------------------------
  // Properties of the reference filter

  /** Keep drops exactly the entries with an excluded name. */
  lemma {:induction false} KeepMembers(hs: seq<Header>, drop: set<string>, h: Header)
    ensures h in Keep(hs, drop) <==> h in hs && h.name !in drop
    decreases |hs|
  {
    if |hs| > 0 {
      KeepMembers(hs[1..], drop, h);
      assert hs == [hs[0]] + hs[1..];
    }
  }

  /** Keep preserves the multiplicity of every entry it does not drop. */
  lemma {:induction false} KeepCounts(hs: seq<Header>, drop: set<string>, h: Header)
    ensures multiset(Keep(hs, drop))[h] == if h.name in drop then 0 else multiset(hs)[h]
    decreases |hs|
  {
    if |hs| > 0 {
      KeepCounts(hs[1..], drop, h);
      assert hs == [hs[0]] + hs[1..];
    }
  }

  /** An empty exclusion set changes nothing. */
  lemma {:induction false} KeepNothing(hs: seq<Header>)
    ensures Keep(hs, {}) == hs
    decreases |hs|
  {
    if |hs| > 0 {
      KeepNothing(hs[1..]);
      assert hs == [hs[0]] + hs[1..];
    }
  }

  /** Filtering twice is filtering once by the union. */
  lemma {:induction false} KeepKeep(hs: seq<Header>, a: set<string>, b: set<string>)
    ensures Keep(Keep(hs, a), b) == Keep(hs, a + b)
    decreases |hs|
  {
    if |hs| > 0 {
      KeepKeep(hs[1..], a, b);
      if hs[0].name !in a {
        assert Keep(hs, a) == [hs[0]] + Keep(hs[1..], a);
        assert Keep(hs, a)[1..] == Keep(hs[1..], a);
      }
    }
  }

  // ---------------------------------------------------------------------------
  // Properties of redaction

  /** A logged (redacted) list holds exactly the entries whose name is not
      excluded, each as often as in the original. */
  lemma RedactMembers(hs: seq<Header>, names: Option<seq<string>>, h: Header)
    ensures h in Redact(hs, names) <==> h in hs && !(names.Some? && h.name in names.value)
    ensures multiset(Redact(hs, names))[h]
         == if names.Some? && h.name in names.value then 0 else multiset(hs)[h]
  {
    KeepMembers(hs, Excluded(names), h);
    KeepCounts(hs, Excluded(names), h);
  }

  /** A null or empty exclusion list yields the original list. */
  lemma RedactNothing(hs: seq<Header>, names: Option<seq<string>>)
    requires names.None? || |names.value| == 0
    ensures Redact(hs, names) == hs
  {
  }

  /** Redacting an already-redacted list with the same names changes nothing. */
  lemma RedactIdempotent(hs: seq<Header>, names: Option<seq<string>>)
    ensures Redact(Redact(hs, names), names) == Redact(hs, names)
  {
    var s := Excluded(names);
    KeepKeep(hs, s, s);
    assert s + s == s;
  }

  /** Redacting by `a` and then by `b` equals redacting once by `a + b`. */
  lemma RedactCompose(hs: seq<Header>, a: seq<string>, b: seq<string>)
    ensures Redact(Redact(hs, Some(a)), Some(b)) == Redact(hs, Some(a + b))
  {
    KeepKeep(hs, Excluded(Some(a)), Excluded(Some(b)));
    assert Excluded(Some(a)) + Excluded(Some(b)) == Excluded(Some(a + b));
  }

  /** Only the set of names matters: their order and any duplicates do not. */
  lemma RedactOrderIndependent(hs: seq<Header>, a: seq<string>, b: seq<string>)
    requires forall n :: n in a <==> n in b
    ensures Redact(hs, Some(a)) == Redact(hs, Some(b))
  {
    assert Excluded(Some(a)) == Excluded(Some(b));
  }
}
