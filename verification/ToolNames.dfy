/** Tool names made safe for strict upstreams, and the way back to the original pair. */
module ToolNames {

  datatype Pair = Pair(namespace: string, name: string)

  /** The three maps of the mapper. */
  datatype Mapper = Mapper(forward: map<string, string>, reverse: map<string, Pair>, used: set<string>)

  const NUL := '\0'

  const Empty := Mapper(map[], map[], {})

  function Key(p: Pair): string { p.namespace + [NUL] + p.name }

  function FullName(p: Pair): string {
    if p.namespace != "" then p.namespace + "." + p.name else p.name
  }

  predicate SafeChar(c: char) {
    'a' <= c <= 'z' || 'A' <= c <= 'Z' || '0' <= c <= '9' || c == '_' || c == '-'
  }

  ghost predicate Safe(s: string) { forall i :: 0 <= i < |s| ==> SafeChar(s[i]) }

  function Sanitize(s: string): (r: string)
    ensures Safe(r)
  {
    seq(|s|, i requires 0 <= i < |s| => if SafeChar(s[i]) then s[i] else '_')
  }

  // ----- Numeric suffixes -----

  function Digit(d: nat): char
    requires d < 10
  {
    ('0' as int + d) as char
  }

  function Decimal(n: nat): (r: string)
    ensures r != "" && Safe(r)
  {
    if n < 10 then [Digit(n)] else Decimal(n / 10) + [Digit(n % 10)]
  }

  lemma {:induction false} DecimalIsInjective(m: nat, n: nat)
    requires Decimal(m) == Decimal(n)
    ensures m == n
    decreases m
  {
    var s := Decimal(m);
    assert s[|s| - 1] == Digit(m % 10) == Digit(n % 10);
    if m >= 10 && n >= 10 {
      assert s[..|s| - 1] == Decimal(m / 10) == Decimal(n / 10);
      DecimalIsInjective(m / 10, n / 10);
    }
  }

  /** The number a string of digits stands for. */
  function Value(s: string): int {
    if s == "" then 0 else 10 * Value(s[..|s| - 1]) + (s[|s| - 1] as int - '0' as int)
  }

  lemma {:induction false} DecimalIsRead(n: nat)
    ensures Value(Decimal(n)) == n
    ensures forall i :: 0 <= i < |Decimal(n)| ==> '0' <= Decimal(n)[i] <= '9'
    ensures n > 0 ==> Decimal(n)[0] != '0'
  {
    var s := Decimal(n);
    if n >= 10 {
      DecimalIsRead(n / 10);
      assert s[..|s| - 1] == Decimal(n / 10);
    } else {
      assert s[..|s| - 1] == "";
    }
  }

  function Candidate(base: string, i: nat): string { base + "_" + Decimal(i) }

  lemma {:induction false} CandidatesDiffer(base: string, i: nat, j: nat)
    requires Candidate(base, i) == Candidate(base, j)
    ensures i == j
  {
    assert Candidate(base, i)[|base| + 1..] == Decimal(i);
    assert Candidate(base, j)[|base| + 1..] == Decimal(j);
    DecimalIsInjective(i, j);
  }

  /** The first suffix from i on that is not taken; each taken one uses up a name. */
  function FirstFree(taken: set<string>, base: string, i: nat): nat
    decreases |taken|
  {
    if Candidate(base, i) !in taken then i else FirstFree(taken - {Candidate(base, i)}, base, i + 1)
  }

  lemma {:induction false} FirstFreeIsLeast(used: set<string>, taken: set<string>, base: string, i: nat)
    requires taken <= used
    requires forall j: nat :: i <= j && Candidate(base, j) in used ==> Candidate(base, j) in taken
    ensures var k := FirstFree(taken, base, i);
            k >= i && Candidate(base, k) !in used && forall j: nat :: i <= j < k ==> Candidate(base, j) in used
    decreases |taken|
  {
    var c := Candidate(base, i);
    if c in taken {
      forall j: nat | i + 1 <= j && Candidate(base, j) in used
        ensures Candidate(base, j) in taken - {c}
      {
        if Candidate(base, j) == c { CandidatesDiffer(base, i, j); }
      }
      FirstFreeIsLeast(used, taken - {c}, base, i + 1);
    }
  }

  /** A name no other pair has: the sanitized name, or its first free numbered variant. */
  function FreshName(used: set<string>, base: string): string {
    if base !in used then base else Candidate(base, FirstFree(used, base, 2))
  }

  lemma {:induction false} FreshNameIsFresh(used: set<string>, base: string)
    ensures FreshName(used, base) !in used
    ensures Safe(base) ==> Safe(FreshName(used, base))
  {
    if base in used { FirstFreeIsLeast(used, used, base, 2); }
  }

  // ----- Registration and restoration -----

  function Register(m: Mapper, p: Pair): Mapper {
    if Key(p) in m.forward then m
    else
      var s := FreshName(m.used, Sanitize(FullName(p)));
      Mapper(m.forward[Key(p) := s], m.reverse[s := p], m.used + {s})
  }

  /** Position of the last dot, or -1. */
  function LastDot(s: string): (i: int)
    ensures -1 <= i < |s|
  {
    if s == "" then -1 else if s[|s| - 1] == '.' then |s| - 1 else LastDot(s[..|s| - 1])
  }

  function SplitName(s: string): Pair {
    var i := LastDot(s);
    if 0 < i < |s| - 1 then Pair(s[..i], s[i + 1..]) else Pair("", s)
  }

  /** A name is split at its last dot, if there is something on both sides of it. */
  lemma {:induction false} SplitsAtLastDot(s: string, namespace: string, name: string)
    ensures namespace != "" ==>
              (SplitName(s) == Pair(namespace, name)
               <==> s == namespace + "." + name && name != "" && '.' !in name)
    ensures SplitName(s).namespace == "" ==> SplitName(s) == Pair("", s)
  {
    LastDotIsLast(s);
    var i, k := LastDot(s), |namespace|;
    if s == namespace + "." + name && '.' !in name {
      assert s[k] == '.' && s[k + 1..] == name;
      assert forall j :: k < j < |s| ==> s[j] == name[j - k - 1];
      assert i == k && s[..k] == namespace;
    } else if 0 < i < |s| - 1 {
      assert s == s[..i] + "." + s[i + 1..];
      var tail := s[i + 1..];
      assert forall j :: 0 <= j < |tail| ==> tail[j] == s[i + 1 + j];
    }
  }

  lemma {:induction false} LastDotIsLast(s: string)
    ensures var i := LastDot(s); (i >= 0 ==> s[i] == '.') && forall j :: i < j < |s| ==> s[j] != '.'
    decreases |s|
  {
    if s != "" { LastDotIsLast(s[..|s| - 1]); }
  }

  function Restored(m: Mapper, s: string): Pair {
    if s in m.reverse then m.reverse[s] else SplitName(s)
  }

  class ToolNameMapper {
    var forward: map<string, string>
    var reverse: map<string, Pair>
    var used: set<string>

    constructor ()
      ensures Value() == Empty
    {
      forward, reverse, used := map[], map[], {};
    }

    ghost function Value(): Mapper
      reads this
    {
      Mapper(forward, reverse, used)
    }

    static method SanitizeToolName(s: string) returns (r: string)
      ensures r == Sanitize(s)
    {
      r := "";
      for i := 0 to |s|
        invariant r == Sanitize(s)[..i]
      {
        r := r + [if SafeChar(s[i]) then s[i] else '_'];
      }
    }

    /** The unbounded search for a free suffix: it ends because every candidate met so
        far is a different member of the finite set of used names. */
    method FindFree(base: string) returns (candidate: string)
      ensures candidate == Candidate(base, FirstFree(used, base, 2))
    {
      var i := 2;
      ghost var taken := used;
      FirstFreeIsLeast(used, used, base, 2);
      candidate := Candidate(base, i);
      while candidate in used
        invariant i >= 2 && candidate == Candidate(base, i) && taken <= used
        invariant forall j: nat :: i <= j && Candidate(base, j) in used ==> Candidate(base, j) in taken
        invariant FirstFree(taken, base, i) == FirstFree(used, base, 2)
        decreases |taken|
      {
        forall j: nat | i + 1 <= j && Candidate(base, j) in used
          ensures Candidate(base, j) in taken - {candidate}
        {
          if Candidate(base, j) == candidate { CandidatesDiffer(base, i, j); }
        }
        taken := taken - {candidate};
        i := i + 1;
        candidate := Candidate(base, i);
      }
    }

    method SanitizeAndRegister(namespace: string, name: string) returns (sanitized: string)
      modifies this
      ensures Value() == Register(old(Value()), Pair(namespace, name))
      ensures Key(Pair(namespace, name)) in forward && sanitized == forward[Key(Pair(namespace, name))]
    {
      var key := namespace + [NUL] + name;
      if key in forward {
        return forward[key];
      }
      var full := name;
      if namespace != "" {
        full := namespace + "." + name;
      }
      sanitized := SanitizeToolName(full);
      if sanitized in used {
        sanitized := FindFree(sanitized);
      }
      forward := forward[key := sanitized];
      reverse := reverse[sanitized := Pair(namespace, name)];
      used := used + {sanitized};
    }

    method Restore(sanitized: string) returns (p: Pair)
      ensures p == Restored(Value(), sanitized)
    {
      if sanitized in reverse {
        return reverse[sanitized];
      }
      p := SplitName(sanitized);
    }
  }

  // ----- Every registration history -----

  function After(history: seq<Pair>): Mapper
    decreases |history|
  {
    if history == [] then Empty else Register(After(history[..|history| - 1]), history[|history| - 1])
  }

  /** The two maps are inverse to each other, up to the key of a pair, and every name in
      use is safe. */
  ghost predicate Valid(m: Mapper) {
    && (forall k :: k in m.forward ==> m.forward[k] in m.reverse && Key(m.reverse[m.forward[k]]) == k)
    && (forall s :: s in m.used <==> s in m.reverse)
    && (forall s :: s in m.reverse ==> Safe(s) && Key(m.reverse[s]) in m.forward && m.forward[Key(m.reverse[s])] == s)
  }

  lemma {:induction false} RegisterKeepsValid(m: Mapper, p: Pair)
    requires Valid(m)
    ensures Valid(Register(m, p)) && Key(p) in Register(m, p).forward
  {
    hide Key, FreshName, Safe, Sanitize;
    FreshNameIsFresh(m.used, Sanitize(FullName(p)));
  }

  lemma {:induction false} AfterIsValid(history: seq<Pair>)
    ensures Valid(After(history))
    decreases |history|
  {
    if history != [] {
      AfterIsValid(history[..|history| - 1]);
      RegisterKeepsValid(After(history[..|history| - 1]), history[|history| - 1]);
    }
  }

  /** A name in use is its pair's sanitized full name, or longer; the pair without any
      characters is never renamed. */
  ghost predicate Derived(s: string, p: Pair) {
    && (s == Sanitize(FullName(p)) || |s| > |FullName(p)|)
    && (p == Pair("", "") ==> s == "")
  }

  ghost predicate AllDerived(m: Mapper) { forall s :: s in m.reverse ==> Derived(s, m.reverse[s]) }

  lemma {:induction false} AfterIsDerived(history: seq<Pair>)
    ensures AllDerived(After(history))
    decreases |history|
  {
    if history != [] {
      var n := |history| - 1;
      AfterIsDerived(history[..n]);
      AfterIsValid(history[..n]);
      RegisterDerives(After(history[..n]), history[n]);
    }
  }

  lemma {:induction false} RegisterDerives(m: Mapper, p: Pair)
    requires Valid(m) && AllDerived(m)
    ensures AllDerived(Register(m, p))
  {
    assert "" in m.used ==> Derived("", m.reverse[""]) && m.reverse[""] == Pair("", "");
    if Key(p) !in m.forward {
      assert Derived(FreshName(m.used, Sanitize(FullName(p))), p);
    }
  }

  /** One name comes before another if it is shorter, or as long but no longer safe. */
  ghost predicate Below(y: string, x: string) { |y| < |x| || (|y| == |x| && Safe(x) && !Safe(y)) }

  /** Restoring a name gives a namespace, or the same name, or one below it. */
  lemma {:induction false} RestoreDescends(history: seq<Pair>, x: string)
    ensures var p := Restored(After(history), x);
            && (p.namespace == "" ==> p.name == x || Below(p.name, x))
            && (p == Pair("", "") <==> x == "")
  {
    var m := After(history);
    AfterIsValid(history);
    AfterIsDerived(history);
    if x in m.reverse {
      var p := m.reverse[x];
      assert Derived(x, p);
      if p.namespace == "" && p.name != x && x == Sanitize(p.name) { Unchanged(p.name); }
    } else {
      SplitsAtLastDot(x, "", "");
    }
  }

  lemma {:induction false} Unchanged(s: string)
    ensures Safe(s) ==> Sanitize(s) == s
  {}

  /** The text with every character outside the safe alphabet replaced by an underscore. */
  ghost predicate IsSanitized(r: string, s: string) {
    |r| == |s| && forall i :: 0 <= i < |s| ==> r[i] == if SafeChar(s[i]) then s[i] else '_'
  }

  /** A new pair is given its sanitized dotted name if no pair has that, and otherwise the
      first of _2, _3, ... after it that no pair has. */
  lemma {:induction false} FirstFreeNameIsGiven(history: seq<Pair>, p: Pair) returns (base: string, k: nat)
    requires Key(p) !in After(history).forward
    ensures IsSanitized(base, if p.namespace == "" then p.name else p.namespace + "." + p.name)
    ensures var m, m' := After(history), After(history + [p]);
            && Key(p) in m'.forward
            && (if base !in m.used then m'.forward[Key(p)] == base
                else
                  && k >= 2 && m'.forward[Key(p)] == base + "_" + Decimal(k) && base + "_" + Decimal(k) !in m.used
                  && forall j :: 2 <= j < k ==> Candidate(base, j) in m.used)
  {
    base := Sanitize(FullName(p));
    var used := After(history).used;
    k := FirstFree(used, base, 2);
    FirstFreeIsLeast(used, used, base, 2);
    assert (history + [p])[..|history|] == history;
  }

  /** Registering more pairs changes no name already given, and no way back. */
  lemma {:induction false} NamesAreStable(history: seq<Pair>, more: seq<Pair>, k: string)
    requires k in After(history).forward
    ensures var m, m' := After(history), After(history + more);
            && k in m'.forward && m'.forward[k] == m.forward[k]
            && Restored(m', m.forward[k]) == Restored(m, m.forward[k])
    decreases |more|
  {
    if more == [] {
      assert history + more == history;
    } else {
      var n := |more| - 1;
      NamesAreStable(history, more[..n], k);
      assert (history + more)[..|history + more| - 1] == history + more[..n];
      var m := After(history + more[..n]);
      AfterIsValid(history);
      AfterIsValid(history + more[..n]);
      FreshNameIsFresh(m.used, Sanitize(FullName(more[n])));
      assert m.forward[k] in m.used;
    }
  }

  /** The first pair of the history with the key of h[i]. */
  function FirstWithKey(history: seq<Pair>, i: nat): (j: nat)
    requires i < |history|
    ensures j <= i && Key(history[j]) == Key(history[i])
    ensures forall l :: 0 <= l < j ==> Key(history[l]) != Key(history[i])
  {
    FirstFrom(history, i, 0)
  }

  function FirstFrom(history: seq<Pair>, i: nat, from: nat): (j: nat)
    requires from <= i < |history|
    requires forall l :: 0 <= l < from ==> Key(history[l]) != Key(history[i])
    ensures j <= i && Key(history[j]) == Key(history[i])
    ensures forall l :: 0 <= l < j ==> Key(history[l]) != Key(history[i])
    decreases i - from
  {
    if Key(history[from]) == Key(history[i]) then from else FirstFrom(history, i, from + 1)
  }

  lemma {:induction false} UnseenKey(history: seq<Pair>, k: string)
    requires forall l :: 0 <= l < |history| ==> Key(history[l]) != k
    ensures k !in After(history).forward
    decreases |history|
  {
    if history != [] { UnseenKey(history[..|history| - 1], k); }
  }

  /** The name of a registered pair is restored to the first registered pair with the
      same key. */
  lemma {:induction false} RestoreGivesFirst(history: seq<Pair>, i: nat)
    requires i < |history|
    ensures var m, k := After(history), Key(history[i]);
            k in m.forward && Restored(m, m.forward[k]) == history[FirstWithKey(history, i)]
  {
    var j, k := FirstWithKey(history, i), Key(history[i]);
    var before, upTo := history[..j], history[..j + 1];
    assert upTo[..|upTo| - 1] == before && upTo[j] == history[j];
    UnseenKey(before, k);
    assert k in After(upTo).forward && Restored(After(upTo), After(upTo).forward[k]) == history[j];
    assert upTo + history[j + 1..] == history;
    NamesAreStable(upTo, history[j + 1..], k);
  }

  /** Restore undoes registration for a pair exactly when no different pair with the same
      key was registered before it first was. */
  lemma {:induction false} RestoreUndoesIff(history: seq<Pair>, i: nat)
    requires i < |history|
    ensures var m, k := After(history), Key(history[i]);
            && k in m.forward
            && (Restored(m, m.forward[k]) == history[i]
                <==> forall j :: 0 <= j < i && Key(history[j]) == k && history[j] != history[i] ==>
                       exists l :: 0 <= l < j && history[l] == history[i])
  {
    var m, k, f := After(history), Key(history[i]), FirstWithKey(history, i);
    RestoreGivesFirst(history, i);
    if history[f] == history[i] && f < i {
      assert forall j :: 0 <= j < i && Key(history[j]) == k && history[j] != history[i] ==> f < j;
    }
  }

  /** Keys of pairs whose namespaces have no NUL tell the pairs apart. */
  lemma {:induction false} KeysTellPairsApart(p: Pair, q: Pair)
    requires NUL !in p.namespace && NUL !in q.namespace
    ensures Key(p) == Key(q) <==> p == q
  {
    if Key(p) == Key(q) {
      var k := Key(p);
      assert k[|p.namespace|] == NUL && k[|q.namespace|] == NUL;
      assert forall i :: 0 <= i < |p.namespace| ==> k[i] == p.namespace[i];
      assert forall i :: 0 <= i < |q.namespace| ==> k[i] == q.namespace[i];
      assert |p.namespace| == |q.namespace|;
      assert p.namespace == k[..|p.namespace|] == q.namespace;
      assert p.name == k[|p.namespace| + 1..] == q.name;
    }
  }

  /** So without NUL in namespaces, after any history every registered pair is restored,
      distinct pairs have distinct names, and all names are safe. */
  lemma {:induction false} RoundTrip(history: seq<Pair>, i: nat, j: nat)
    requires i < |history| && j < |history|
    requires forall l :: 0 <= l < |history| ==> NUL !in history[l].namespace
    ensures var m := After(history);
            && Key(history[i]) in m.forward && Key(history[j]) in m.forward
            && Restored(m, m.forward[Key(history[i])]) == history[i]
            && (m.forward[Key(history[i])] == m.forward[Key(history[j])] <==> history[i] == history[j])
            && Safe(m.forward[Key(history[i])])
  {
    AfterIsValid(history);
    RestoreGivesFirst(history, i);
    RestoreGivesFirst(history, j);
    KeysTellPairsApart(history[FirstWithKey(history, i)], history[i]);
    KeysTellPairsApart(history[FirstWithKey(history, j)], history[j]);
  }

  /** With a NUL in a namespace two different pairs can share a key, and the second is
      restored as the first. */
  lemma {:induction false} NulConfuses()
    ensures var p, q := Pair("a", "b\0c"), Pair("a\0b", "c"); var m := After([p, q]);
            p != q && Key(q) in m.forward && Restored(m, m.forward[Key(q)]) == p
  {
    var p, q := Pair("a", "b\0c"), Pair("a\0b", "c");
    assert Key(p) == "a\0b\0c" == Key(q);
    assert FirstWithKey([p, q], 1) == 0;
    RestoreGivesFirst([p, q], 1);
  }
}
