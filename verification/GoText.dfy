/** The few pieces of Go's standard library text handling that the controller relies on:
    decimal printing, lower-casing, splitting and joining. */
module GoText {

  datatype Option<+T> = None | Some(value: T)

  /** Go's (value, error) pairs; the error text is not modelled. */
  datatype Result<+T> = Ok(value: T) | Err

  /** Kubernetes stores port numbers as int32. */
  type int32 = x: int | -0x8000_0000 <= x < 0x8000_0000

  /** Go's conversion uint32(x): the value that is congruent modulo 2^32. */
  function ToUint32(x: int): (r: int)
    ensures 0 <= r < 0x1_0000_0000 && (x - r) % 0x1_0000_0000 == 0
  {
    x % 0x1_0000_0000
  }

  /** Go's conversion int32(x): keep the low 32 bits, read them as two's complement. */
  function ToInt32(x: int): (r: int32)
    ensures (x - r) % 0x1_0000_0000 == 0
    ensures -0x8000_0000 <= x < 0x8000_0000 ==> r == x
  {
    var low := x % 0x1_0000_0000;
    if low < 0x8000_0000 then low else low - 0x1_0000_0000
  }

  // ---------------------------------------------------------------- decimal printing

  predicate AllDigits(s: string) {
    forall i | 0 <= i < |s| :: '0' <= s[i] <= '9'
  }

  function DecimalNat(n: nat): (s: string)
    ensures |s| > 0 && AllDigits(s)
  {
    var digit := [('0' as int + n % 10) as char];
    if n < 10 then digit else DecimalNat(n / 10) + digit
  }

  /** Sprintf("%d", n). */
  function Decimal(n: int): (s: string)
    ensures |s| > 0 && ':' !in s && '-' !in s[1..]
  {
    if n < 0 then "-" + DecimalNat(-n) else DecimalNat(n)
  }

  function ParseNat(s: string): int {
    if s == "" then 0 else ParseNat(s[..|s| - 1]) * 10 + (s[|s| - 1] as int - '0' as int)
  }

  lemma {:induction false} ParseDecimalNat(n: nat)
    ensures ParseNat(DecimalNat(n)) == n
  {
    if n < 10 {
      assert DecimalNat(n)[..0] == "";
    } else {
      ParseDecimalNat(n / 10);
      var s := DecimalNat(n);
      assert s[..|s| - 1] == DecimalNat(n / 10);
    }
  }

  lemma DecimalInjective(a: int, b: int)
    requires Decimal(a) == Decimal(b)
    ensures a == b
  {
    if a < 0 && b < 0 {
      assert Decimal(a)[1..] == DecimalNat(-a) && Decimal(b)[1..] == DecimalNat(-b);
    }
    ParseDecimalNat(if a < 0 then -a else a);
    ParseDecimalNat(if b < 0 then -b else b);
    assert (a < 0) == (Decimal(a)[0] == '-');
    assert (b < 0) == (Decimal(b)[0] == '-');
  }

  // ---------------------------------------------------------------- lower-casing

  function LowerChar(c: char): (r: char)
    ensures 'A' <= c <= 'Z' ==> 'a' <= r <= 'z' && r as int - 'a' as int == c as int - 'A' as int
    ensures !('A' <= c <= 'Z') ==> r == c
  {
    if 'A' <= c <= 'Z' then (c as int + 32) as char else c
  }

  /** strings.ToLower on ASCII text. */
  function Lower(s: string): (r: string)
    ensures |r| == |s| && forall i | 0 <= i < |s| :: r[i] == LowerChar(s[i])
  {
    if s == "" then "" else [LowerChar(s[0])] + Lower(s[1..])
  }

  lemma LowerIdempotent(s: string)
    ensures Lower(Lower(s)) == Lower(s)
  {
    assert forall i | 0 <= i < |s| :: Lower(Lower(s))[i] == Lower(s)[i];
  }

  // ---------------------------------------------------------------- splitting and joining

  predicate OccursAt(s: string, sep: string, i: int) {
    0 <= i <= |s| - |sep| && s[i..i + |sep|] == sep
  }

  predicate Has(s: string, sep: string) {
    exists i :: 0 <= i <= |s| - |sep| && OccursAt(s, sep, i)
  }

  lemma OccursInTail(s: string, sep: string)
    requires s != ""
    ensures forall k | 1 <= k :: OccursAt(s, sep, k) <==> OccursAt(s[1..], sep, k - 1)
  {
    forall k | 1 <= k <= |s| - |sep|
      ensures OccursAt(s, sep, k) <==> OccursAt(s[1..], sep, k - 1)
    {
      SliceOfTail(s, k, k + |sep|);
    }
  }

  lemma SliceOfTail(s: string, from: nat, to: nat)
    requires 1 <= from <= to <= |s|
    ensures s[from..to] == s[1..][from - 1..to - 1]
  {
    var a, b := s[from..to], s[1..][from - 1..to - 1];
    assert |a| == |b|;
    forall i | 0 <= i < |a|
      ensures a[i] == b[i]
    {
      assert a[i] == s[from + i] && b[i] == s[1..][from - 1 + i];
    }
  }

  /** strings.Index: where sep first occurs in s, or -1. */
  function Index(s: string, sep: string): (i: int)
    requires sep != ""
    ensures i >= 0 ==> OccursAt(s, sep, i)
    ensures i < 0 ==> i == -1
    ensures forall j | 0 <= j && (i >= 0 ==> j < i) :: !OccursAt(s, sep, j)
  {
    if |s| < |sep| then -1
    else if s[..|sep|] == sep then 0
    else
      var j := Index(s[1..], sep);
      OccursInTail(s, sep);
      if j < 0 then -1 else j + 1
  }

  /** strings.Split with a non-empty separator. */
  function Split(s: string, sep: string): (parts: seq<string>)
    requires sep != ""
    ensures |parts| > 0
    decreases |s|
  {
    var i := Index(s, sep);
    if i < 0 then [s] else [s[..i]] + Split(s[i + |sep|..], sep)
  }

  /** strings.Join. */
  function Join(parts: seq<string>, sep: string): string {
    if |parts| == 0 then ""
    else if |parts| == 1 then parts[0]
    else parts[0] + sep + Join(parts[1..], sep)
  }

  lemma {:induction false} IndexAfter(a: string, sep: string, b: string)
    requires sep != "" && sep[0] !in a
    ensures Index(a + sep + b, sep) == |a|
  {
    var s := a + sep + b;
    if a == "" {
      assert s[..|sep|] == sep;
    } else {
      assert s[0] == a[0] && s[..|sep|][0] == a[0];
      assert s[1..] == a[1..] + sep + b;
      IndexAfter(a[1..], sep, b);
    }
  }

  lemma {:induction false} IndexAbsent(s: string, sep: string)
    requires sep != "" && sep[0] !in s
    ensures Index(s, sep) == -1
  {
    if |s| >= |sep| {
      assert s[..|sep|][0] == s[0];
      IndexAbsent(s[1..], sep);
    }
  }

  lemma SplitAfter(a: string, sep: string, b: string)
    requires sep != "" && sep[0] !in a
    ensures Split(a + sep + b, sep) == [a] + Split(b, sep)
  {
    IndexAfter(a, sep, b);
    var s := a + sep + b;
    assert s[..|a|] == a && s[|a| + |sep|..] == b;
  }

  lemma SplitAbsent(s: string, sep: string)
    requires sep != "" && sep[0] !in s
    ensures Split(s, sep) == [s]
  {
    IndexAbsent(s, sep);
  }

  /** Splitting undoes joining when no part holds the separator's first character. */
  lemma {:induction false} SplitJoin(parts: seq<string>, sep: string)
    requires sep != "" && parts != [] && forall p | p in parts :: sep[0] !in p
    ensures Split(Join(parts, sep), sep) == parts
  {
    if |parts| == 1 {
      SplitAbsent(parts[0], sep);
    } else {
      assert parts == [parts[0]] + parts[1..] && parts[0] in parts;
      assert forall p | p in parts[1..] :: p in parts;
      SplitJoin(parts[1..], sep);
      SplitAfter(parts[0], sep, Join(parts[1..], sep));
    }
  }

  /** With a one-character separator no part of a split holds that character. */
  lemma {:induction false} SplitParts(s: string, sep: string)
    requires |sep| == 1
    ensures forall p | p in Split(s, sep) :: sep[0] !in p
    decreases |s|
  {
    var i := Index(s, sep);
    if i < 0 {
      IndexLeftmost(s, sep);
    } else {
      IndexLeftmost(s, sep);
      SplitParts(s[i + 1..], sep);
    }
  }

  lemma {:induction false} IndexLeftmost(s: string, sep: string)
    requires |sep| == 1
    ensures var i := Index(s, sep); sep[0] !in (if i < 0 then s else s[..i])
  {
    if s != "" && s[..1] != sep {
      IndexLeftmost(s[1..], sep);
      var j := Index(s[1..], sep);
      assert s == [s[0]] + s[1..] && s[0] != sep[0] by { assert s[..1] == [s[0]]; }
      if j >= 0 {
        assert s[..j + 1] == [s[0]] + s[1..][..j];
      }
    }
  }

  lemma SplitAndJoinStep(s: string, sep: string, i: nat)
    requires sep != "" && Index(s, sep) == i
    ensures Join(Split(s, sep), sep) == s[..i] + sep + Join(Split(s[i + |sep|..], sep), sep)
  {
    hide Index;
    assert Split(s, sep)[1..] == Split(s[i + |sep|..], sep);
  }

  /** No part of a split holds the separator. */
  lemma {:induction false} SplitPieces(s: string, sep: string)
    requires sep != ""
    ensures forall p | p in Split(s, sep) :: !Has(p, sep)
    decreases |s|
  {
    hide Index;
    var i := Index(s, sep);
    if i >= 0 {
      var piece := s[..i];
      forall k | 0 <= k <= |piece| - |sep|
        ensures !OccursAt(piece, sep, k)
      {
        assert piece[k..k + |sep|] == s[k..k + |sep|] && !OccursAt(s, sep, k);
      }
      SplitPieces(s[i + |sep|..], sep);
    }
  }

  /** Joining undoes splitting, for every string. */
  lemma {:induction false} JoinSplit(s: string, sep: string)
    requires sep != ""
    ensures Join(Split(s, sep), sep) == s
    decreases |s|
  {
    hide Index;
    var i := Index(s, sep);
    if i >= 0 {
      var rest := s[i + |sep|..];
      JoinSplit(rest, sep);
      hide Split, Join;
      SplitAndJoinStep(s, sep, i);
      assert s == s[..i] + s[i..i + |sep|] + rest;
    }
  }

  // ---------------------------------------------------------------- picking from a sequence

  /** The positions, in order, of exactly the elements that pass the test. */
  predicate Picks<T>(at: seq<nat>, all: seq<T>, test: T -> bool) {
    && (forall k | 0 <= k < |at| :: at[k] < |all|)
    && (forall j, k | 0 <= j < k < |at| :: at[j] < at[k])
    && (forall i | 0 <= i < |all| :: i in at <==> test(all[i]))
  }

  /** The elements of all that pass the test, in order, each as often as it is there. */
  ghost predicate PickedFrom<T>(picked: seq<T>, all: seq<T>, test: T -> bool) {
    exists at :: Picks(at, all, test) && |at| == |picked| && forall k | 0 <= k < |at| :: picked[k] == all[at[k]]
  }

  lemma PickedBySame<T>(picked: seq<T>, all: seq<T>, test: T -> bool, test': T -> bool)
    requires PickedFrom(picked, all, test) && forall x | x in all :: test(x) <==> test'(x)
    ensures PickedFrom(picked, all, test')
  {
    var at :| Picks(at, all, test) && |at| == |picked| && forall k | 0 <= k < |at| :: picked[k] == all[at[k]];
    assert Picks(at, all, test');
  }

  lemma PickedNothing<T>(test: T -> bool)
    ensures PickedFrom([], [], test)
  {
    assert Picks([], [], test);
  }

  lemma PicksOn<T>(at: seq<nat>, all: seq<T>, test: T -> bool, x: T)
    requires Picks(at, all, test)
    ensures Picks(at + if test(x) then [|all|] else [], all + [x], test)
  {
    var at', all' := at + if test(x) then [|all|] else [], all + [x];
    assert forall i | 0 <= i < |all| :: (i in at' <==> i in at) && all'[i] == all[i];
    assert test(x) ==> at'[|at|] == |all|;
  }

  lemma PicksInRange<T>(at: seq<nat>, all: seq<T>, test: T -> bool)
    requires Picks(at, all, test)
    ensures forall k | 0 <= k < |at| :: at[k] < |all|
  {}

  lemma PickedAtOn<T>(at: seq<nat>, picked: seq<T>, all: seq<T>, test: T -> bool, x: T)
    requires Picks(at, all, test) && |at| == |picked| && forall k | 0 <= k < |at| :: picked[k] == all[at[k]]
    ensures PickedFrom(picked + if test(x) then [x] else [], all + [x], test)
  {
    PicksInRange(at, all, test);
    PicksOn(at, all, test, x);
    var at', picked' := at + if test(x) then [|all|] else [], picked + if test(x) then [x] else [];
    assert Picks(at', all + [x], test) && |at'| == |picked'|;
    hide Picks;
    forall k | 0 <= k < |at'|
      ensures picked'[k] == (all + [x])[at'[k]]
    {
      if k < |at| {
        assert at'[k] == at[k];
      }
    }
  }

  lemma PickedOn<T>(picked: seq<T>, all: seq<T>, test: T -> bool, x: T)
    requires PickedFrom(picked, all, test)
    ensures PickedFrom(picked + if test(x) then [x] else [], all + [x], test)
  {
    var at :| Picks(at, all, test) && |at| == |picked| && forall k | 0 <= k < |at| :: picked[k] == all[at[k]];
    PickedAtOn(at, picked, all, test, x);
  }

  // ---------------------------------------------------------------- "protocol:port" keys

  /** The string the controller files a target group under: Sprintf("%s:%d", protocol, port). */
  function GroupKey(protocol: string, port: int): string {
    protocol + ":" + Decimal(port)
  }

  lemma ShorterProtocolDiffers(p: string, m: int, q: string, n: int)
    requires |p| < |q|
    ensures GroupKey(p, m) != GroupKey(q, n)
  {
    hide Decimal, DecimalNat;
    var s, digits := GroupKey(p, m), Decimal(m);
    assert GroupKey(q, n)[|q|] == ':';
    if |q| < |s| {
      assert s[|q|] == digits[|q| - |p| - 1] && digits[|q| - |p| - 1] in digits;
    }
  }

  /** The string keys stand for the (protocol, port) pair, whatever the protocol text is. */
  lemma GroupKeyInjective(p: string, m: int, q: string, n: int)
    ensures GroupKey(p, m) == GroupKey(q, n) <==> p == q && m == n
  {
    if |p| < |q| {
      ShorterProtocolDiffers(p, m, q, n);
    } else if |q| < |p| {
      ShorterProtocolDiffers(q, n, p, m);
    } else if GroupKey(p, m) == GroupKey(q, n) {
      var s := GroupKey(p, m);
      assert s[..|p|] == p && s[..|q|] == q;
      assert s[|p| + 1..] == Decimal(m) && s[|q| + 1..] == Decimal(n);
      DecimalInjective(m, n);
    }
  }

  // ---------------------------------------------------------------- "namespace/name" keys

  /** Sprintf("%s/%s", namespace, name). */
  function ServiceKey(namespace: string, name: string): string {
    namespace + "/" + name
  }

  /** The resync worker's parse gives back what was printed exactly when neither half holds a slash. */
  lemma ServiceKeyRoundTrip(namespace: string, name: string)
    ensures Split(ServiceKey(namespace, name), "/") == [namespace, name] <==> '/' !in namespace && '/' !in name
  {
    if '/' !in namespace && '/' !in name {
      SplitAfter(namespace, "/", name);
      SplitAbsent(name, "/");
    } else {
      var parts := Split(ServiceKey(namespace, name), "/");
      SplitParts(ServiceKey(namespace, name), "/");
      assert forall p | p in parts :: '/' !in p;
      assert namespace in [namespace, name] && name in [namespace, name];
    }
  }
}
