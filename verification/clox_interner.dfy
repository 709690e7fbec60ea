/** The string interner (ch21/src/lox/interner.rs): a map from text to
    symbol and a vector from symbol back to text. A symbol is a `u32`, so
    the new symbol is the vector's length truncated to 32 bits. The map's
    hashing (FNV-1a, modelled separately) does not affect its contents. */
module CloxInterner {
  import opened Util

  /** One more than the largest `u32`. */
  const SymbolRange: nat := 0x1_0000_0000

  datatype Interner = Interner(ids: map<string, nat>, names: seq<string>)

  /** `Interner::default`. */
  const Empty := Interner(map[], [])

  /** The map and the vector are inverse to each other: symbols are dense,
      sequential and name distinct strings. */
  predicate Valid(it: Interner) {
    |it.names| <= SymbolRange &&
    (forall s :: s in it.ids ==> it.ids[s] < |it.names| && it.names[it.ids[s]] == s) &&
    (forall i :: 0 <= i < |it.names| ==> it.names[i] in it.ids && it.ids[it.names[i]] == i)
  }

  /** `intern`: the existing symbol of a known string, else the next
      symbol (the old count, as a `u32`) for a newly stored string. */
  function Intern(it: Interner, name: string): (r: (Interner, nat))
    ensures name in it.ids ==> r == (it, it.ids[name])
    ensures name !in it.ids ==> r.1 == |it.names| % SymbolRange &&
                                 r.0.names == it.names + [name] &&
                                 r.0.ids == it.ids[name := r.1]
    ensures r.1 < SymbolRange || name in it.ids
  {
    if name in it.ids then (it, it.ids[name])
    else
      var id := |it.names| % SymbolRange;
      (Interner(it.ids[name := id], it.names + [name]), id)
  }

  /** `lookup`: the text of a symbol; `None` is the panic of `unwrap` on a
      symbol past the end of the vector. */
  function Lookup(it: Interner, idx: nat): (r: Option<string>)
    ensures r.Some? <==> idx < |it.names|
    ensures r.Some? ==> r.value == it.names[idx]
  {
    if idx < |it.names| then Some(it.names[idx]) else None
  }

  lemma EmptyValid()
    ensures Valid(Empty)
  {
  }

  /** Interning keeps the interner valid while fewer than 2^32 strings are
      stored, and the symbol looks up to the interned text. */
  lemma InternValid(it: Interner, name: string)
    requires Valid(it) && |it.names| < SymbolRange
    ensures var (it1, id) := Intern(it, name);
            Valid(it1) && Lookup(it1, id) == Some(name) && |it.names| <= |it1.names| <= |it.names| + 1
  {
    var (it1, id) := Intern(it, name);
    if name !in it.ids {
      assert id == |it.names|;
      forall i | 0 <= i < |it1.names| ensures it1.names[i] in it1.ids && it1.ids[it1.names[i]] == i {
        if i < |it.names| {
          assert it1.names[i] == it.names[i];
          assert it.names[i] != name;
        }
      }
    }
  }

  /** Interning the same string again returns the same symbol and changes
      nothing. */
  lemma InternIdempotent(it: Interner, name: string)
    ensures var (it1, id) := Intern(it, name);
            Intern(it1, name) == (it1, id)
  {
  }

  /** Distinct strings receive distinct symbols. */
  lemma InternDistinct(it: Interner, a: string, b: string)
    requires Valid(it) && |it.names| + 1 < SymbolRange && a != b
    ensures var (it1, x) := Intern(it, a);
            var (it2, y) := Intern(it1, b);
            x != y && Lookup(it2, x) == Some(a) && Lookup(it2, y) == Some(b)
  {
    InternValid(it, a);
    var (it1, x) := Intern(it, a);
    InternValid(it1, b);
    var (it2, y) := Intern(it1, b);
    assert it2.names[..|it1.names|] == it1.names;
  }

  /** The scenario of the interner's test: "astring" twice gets one
      symbol, "anotherstring" another, and both look up to their text. */
  lemma InternerScenario()
    ensures var (i1, a) := Intern(Empty, "astring");
            var (i2, a2) := Intern(i1, "astring");
            var (i3, b) := Intern(i2, "anotherstring");
            a == a2 && a != b && Lookup(i3, a) == Some("astring") && Lookup(i3, b) == Some("anotherstring")
  {
    EmptyValid();
    InternDistinct(Empty, "astring", "anotherstring");
  }
}
