/**
 Strings and sorting as the Go standard library gives them: byte-wise string order
 (which for UTF-8 is code point order), `sort.Strings`, `sort.Slice` and the sorted
 key list of a map.
 */
module Text {

  datatype Option<T> = None | Some(value: T)

  /** The string order `a < b` of Go. */
  predicate Less(a: string, b: string) {
    |b| > 0 && (|a| == 0 || a[0] < b[0] || (a[0] == b[0] && Less(a[1..], b[1..])))
  }

  lemma {:induction false} LessIrreflexive(a: string)
    ensures !Less(a, a)
  {
    if |a| > 0 { LessIrreflexive(a[1..]); }
  }

  lemma {:induction false} LessTransitive(a: string, b: string, c: string)
    requires Less(a, b) && Less(b, c)
    ensures Less(a, c)
  {
    if |a| > 0 && a[0] == b[0] && b[0] == c[0] {
      LessTransitive(a[1..], b[1..], c[1..]);
    }
  }

  lemma {:induction false} LessTotal(a: string, b: string)
    ensures a == b || Less(a, b) || Less(b, a)
  {
    if |a| > 0 && |b| > 0 && a[0] == b[0] {
      LessTotal(a[1..], b[1..]);
      assert a == [a[0]] + a[1..] && b == [b[0]] + b[1..];
    }
  }

  /** The first difference decides, and a proper prefix comes first. */
  lemma {:induction false} LessIs(a: string, b: string)
    ensures Less(a, b) <==> exists k :: 0 <= k <= |a| && k < |b| && a[..k] == b[..k] && (k == |a| || a[k] < b[k])
  {
    if |a| > 0 && |b| > 0 && a[0] == b[0] {
      LessIs(a[1..], b[1..]);
      if Less(a, b) {
        var k :| 0 <= k <= |a| - 1 && k < |b| - 1 && a[1..][..k] == b[1..][..k] && (k == |a| - 1 || a[1..][k] < b[1..][k]);
        assert a[..k + 1] == [a[0]] + a[1..][..k] && b[..k + 1] == [b[0]] + b[1..][..k];
      }
      if k :| 0 <= k <= |a| && k < |b| && a[..k] == b[..k] && (k == |a| || a[k] < b[k]) {
        assert k > 0 && a[1..][..k - 1] == a[..k][1..] && b[1..][..k - 1] == b[..k][1..];
      }
    } else if |b| > 0 && Less(a, b) {
      assert a[..0] == b[..0];
    } else if k :| 0 <= k <= |a| && k < |b| && a[..k] == b[..k] && (k == |a| || a[k] < b[k]) {
      if k > 0 { assert a[..k][0] == b[..k][0]; }
    }
  }

  /** No element's key is below the key of an element before it. */
  ghost predicate SortedBy<T(!new)>(key: T -> string, s: seq<T>) {
    forall i, j :: 0 <= i < j < |s| ==> !Less(key(s[j]), key(s[i]))
  }

  /** Ascending without repetition. */
  ghost predicate StrictlySorted(s: seq<string>) {
    forall i, j :: 0 <= i < j < |s| ==> Less(s[i], s[j])
  }

  function Id(s: string): string { s }

  function Elements<T>(s: seq<T>): set<T> { set x | x in s }

  lemma {:induction false} NoElements<T>(s: seq<T>)
    ensures Elements(s) == {} <==> s == []
  {
    if s != [] { assert s[0] in Elements(s); }
  }

  ghost predicate NoDup<T(!new)>(s: seq<T>) {
    forall i, j :: 0 <= i < j < |s| ==> s[i] != s[j]
  }

  function Insert<T>(key: T -> string, x: T, s: seq<T>): seq<T> {
    if s == [] then [x]
    else if Less(key(s[0]), key(x)) then [s[0]] + Insert(key, x, s[1..])
    else [x] + s
  }

  /** `sort.Slice` by a string key; equal keys keep their order. */
  function Sort<T>(key: T -> string, s: seq<T>): seq<T> {
    if s == [] then [] else Insert(key, s[0], Sort(key, s[1..]))
  }

  lemma {:induction false} InsertPermutes<T>(key: T -> string, x: T, s: seq<T>)
    ensures multiset(Insert(key, x, s)) == multiset{x} + multiset(s)
  {
    if s != [] && Less(key(s[0]), key(x)) {
      InsertPermutes(key, x, s[1..]);
      assert s == [s[0]] + s[1..];
    }
  }

  lemma {:induction false} SortPermutes<T>(key: T -> string, s: seq<T>)
    ensures multiset(Sort(key, s)) == multiset(s)
  {
    if s != [] {
      SortPermutes(key, s[1..]);
      InsertPermutes(key, s[0], Sort(key, s[1..]));
      assert s == [s[0]] + s[1..];
    }
  }

  lemma {:induction false} InsertSorted<T(!new)>(key: T -> string, x: T, s: seq<T>)
    requires SortedBy(key, s)
    ensures SortedBy(key, Insert(key, x, s))
  {
    if s != [] && Less(key(s[0]), key(x)) {
      var rest := Insert(key, x, s[1..]);
      InsertSorted(key, x, s[1..]);
      InsertPermutes(key, x, s[1..]);
      forall j | 0 <= j < |rest| ensures !Less(key(rest[j]), key(s[0])) {
        assert rest[j] in multiset(rest);
        if rest[j] in s[1..] {
        } else {
          assert rest[j] == x;
          if Less(key(x), key(s[0])) { LessTransitive(key(s[0]), key(x), key(s[0])); LessIrreflexive(key(s[0])); }
        }
      }
    } else if s != [] {
      forall j | 0 <= j < |s| ensures !Less(key(s[j]), key(x)) {
        if Less(key(s[j]), key(x)) {
          LessTotal(key(s[j]), key(s[0]));
          if Less(key(s[0]), key(s[j])) { LessTransitive(key(s[0]), key(s[j]), key(x)); }
        }
      }
    }
  }

  lemma {:induction false} SortSorts<T(!new)>(key: T -> string, s: seq<T>)
    ensures SortedBy(key, Sort(key, s))
  {
    if s != [] {
      SortSorts(key, s[1..]);
      InsertSorted(key, s[0], Sort(key, s[1..]));
    }
  }

  lemma {:induction false} SortElements<T(!new)>(key: T -> string, s: seq<T>)
    ensures Elements(Sort(key, s)) == Elements(s) && |Sort(key, s)| == |s|
    ensures NoDup(s) ==> NoDup(Sort(key, s))
  {
    var r := Sort(key, s);
    SortPermutes(key, s);
    assert |multiset(r)| == |multiset(s)|;
    forall x ensures x in r <==> x in s {
      assert x in multiset(r) <==> x in multiset(s);
    }
    if NoDup(s) && !NoDup(r) {
      var i, j :| 0 <= i < j < |r| && r[i] == r[j];
      TwiceInMultiset(r, i, j);
      assert multiset(s)[r[i]] >= 2;
      NoDupOnce(s, r[i]);
    }
  }

  lemma {:induction false} TwiceInMultiset<T>(s: seq<T>, i: nat, j: nat)
    requires i < j < |s| && s[i] == s[j]
    ensures multiset(s)[s[i]] >= 2
  {
    assert s == s[..j] + [s[j]] + s[j + 1..];
    assert s[i] in s[..j];
  }

  lemma {:induction false} NoDupOnce<T(!new)>(s: seq<T>, x: T)
    requires NoDup(s)
    ensures multiset(s)[x] <= 1
  {
    if s != [] {
      assert s == [s[0]] + s[1..];
      NoDupOnce(s[1..], x);
      if x == s[0] { assert x !in s[1..]; }
    }
  }

  /** A sequence already in strictly ascending key order is what sorting returns. */
  lemma {:induction false} SortOfSorted<T(!new)>(key: T -> string, s: seq<T>)
    requires forall i, j :: 0 <= i < j < |s| ==> Less(key(s[i]), key(s[j]))
    ensures Sort(key, s) == s
  {
    if s != [] {
      SortOfSorted(key, s[1..]);
      if |s| > 1 {
        assert Less(key(s[0]), key(s[1]));
        if Less(key(s[1]), key(s[0])) { LessTransitive(key(s[0]), key(s[1]), key(s[0])); LessIrreflexive(key(s[0])); }
      }
    }
  }

  /** Strictly ascending sequences are determined by their elements. */
  lemma {:induction false} SortedUnique(a: seq<string>, b: seq<string>)
    requires StrictlySorted(a) && StrictlySorted(b)
    requires Elements(a) == Elements(b)
    ensures a == b
  {
    if a == [] || b == [] {
      NoElements(a);
      NoElements(b);
    } else {
      assert a[0] in Elements(b) && b[0] in Elements(a);
      if a[0] != b[0] {
        assert Less(b[0], a[0]) && Less(a[0], b[0]);
        LessTransitive(a[0], b[0], a[0]);
        LessIrreflexive(a[0]);
      }
      forall x | x in a[1..] || x in b[1..] ensures x in a[1..] && x in b[1..] {
        assert x in Elements(a) && x in Elements(b);
        LessIrreflexive(a[0]);
        assert x != a[0];
        assert a == [a[0]] + a[1..] && b == [b[0]] + b[1..];
      }
      assert Elements(a[1..]) == Elements(b[1..]);
      SortedUnique(a[1..], b[1..]);
      assert a == [a[0]] + a[1..] && b == [b[0]] + b[1..];
    }
  }

  lemma {:induction false} StrictFromSorted(s: seq<string>)
    requires SortedBy(Id, s) && NoDup(s)
    ensures StrictlySorted(s)
  {
    forall i, j | 0 <= i < j < |s| ensures Less(s[i], s[j]) {
      LessTotal(s[i], s[j]);
      assert !Less(Id(s[j]), Id(s[i]));
    }
  }

  /** Some enumeration of a finite set: the order in which Go ranges over a map. */
  ghost function Enumerate(s: set<string>): (r: seq<string>)
    ensures NoDup(r) && Elements(r) == s
  {
    if s == {} then [] else
      var x :| x in s;
      var rest := Enumerate(s - {x});
      assert Elements([x] + rest) == {x} + Elements(rest);
      [x] + rest
  }

  lemma {:induction false} SortedKeysExist(s: set<string>)
    ensures exists r :: StrictlySorted(r) && Elements(r) == s
  {
    var e := Enumerate(s);
    SortSorts(Id, e);
    SortElements(Id, e);
    StrictFromSorted(Sort(Id, e));
  }

  /** The keys of a map in ascending order (`sortedKeys`). */
  ghost function SortedKeys(s: set<string>): (r: seq<string>)
    ensures Elements(r) == s
  {
    SortedKeysExist(s);
    var r :| StrictlySorted(r) && Elements(r) == s;
    r
  }

  lemma {:induction false} SortedKeysStrict(s: set<string>)
    ensures StrictlySorted(SortedKeys(s)) && NoDup(SortedKeys(s))
  {
    StrictNoDup(SortedKeys(s));
  }

  lemma {:induction false} StrictNoDup(s: seq<string>)
    requires StrictlySorted(s)
    ensures NoDup(s)
  {
    forall i, j | 0 <= i < j < |s| ensures s[i] != s[j] { LessIrreflexive(s[i]); }
  }

  /** Collects the keys in whatever order the map yields them, then sorts them. */
  method SortKeys(s: set<string>) returns (r: seq<string>)
    ensures r == SortedKeys(s)
  {
    var left, keys := s, [];
    while left != {}
      invariant NoDup(keys) && Elements(keys) == s - left && left <= s
      decreases left
    {
      var x :| x in left;
      assert Elements(keys + [x]) == Elements(keys) + {x};
      keys, left := keys + [x], left - {x};
    }
    r := Sort(Id, keys);
    SortSorts(Id, keys);
    SortElements(Id, keys);
    StrictFromSorted(r);
    SortedUnique(r, SortedKeys(s));
  }

  /** The text of an unsigned number in base ten. */
  function Decimal(n: nat): (r: string)
    ensures |r| > 0 && forall c :: c in r ==> '0' <= c <= '9'
  {
    var d := [('0' as int + n % 10) as char];
    if n < 10 then d else Decimal(n / 10) + d
  }

  lemma {:induction false} DecimalInjective(m: nat, n: nat)
    requires Decimal(m) == Decimal(n)
    ensures m == n
  {
    var a, b := Decimal(m), Decimal(n);
    assert a[|a| - 1] == ('0' as int + m % 10) as char;
    assert b[|b| - 1] == ('0' as int + n % 10) as char;
    assert m % 10 == n % 10;
    if m >= 10 && n >= 10 {
      assert a[..|a| - 1] == Decimal(m / 10) && b[..|b| - 1] == Decimal(n / 10);
      DecimalInjective(m / 10, n / 10);
    }
  }

  /** Cutting at the first occurrence of a delimiter is unambiguous. */
  lemma {:induction false} CutUnique(d: char, x: string, u: string, y: string, v: string)
    requires d !in x && d !in y
    requires x + [d] + u == y + [d] + v
    ensures x == y && u == v
  {
    var s, t := x + [d] + u, y + [d] + v;
    assert s[|x|] == d && t[|y|] == d;
    assert forall i :: 0 <= i < |x| ==> s[i] == x[i];
    assert forall i :: 0 <= i < |y| ==> t[i] == y[i];
    assert s[..|x|] == x && t[..|y|] == y;
    assert s[|x| + 1..] == u && t[|y| + 1..] == v;
  }

  /** `strings.Split` at a one-character separator. */
  function Split(s: string, d: char): (r: seq<string>)
    ensures r != []
  {
    if s == "" then [""]
    else if s[0] == d then [""] + Split(s[1..], d)
    else var rest := Split(s[1..], d); [[s[0]] + rest[0]] + rest[1..]
  }

  lemma {:induction false} SplitCons(c: char, s: string, d: char)
    ensures Split([c] + s, d) == if c == d then [""] + Split(s, d) else [[c] + Split(s, d)[0]] + Split(s, d)[1..]
  {
    assert ([c] + s)[1..] == s;
  }

  lemma {:induction false} SplitNone(s: string, d: char)
    requires d !in s
    ensures Split(s, d) == [s]
  {
    if s != "" {
      SplitNone(s[1..], d);
      assert s == [s[0]] + s[1..];
    }
  }

  lemma {:induction false} SplitConcat(a: string, b: string, d: char)
    ensures Split(a + [d] + b, d) == Split(a, d) + Split(b, d)
  {
    hide Split;
    if a == "" {
      SplitCons(d, b, d);
      assert a + [d] + b == [d] + b;
      SplitNone(a, d);
    } else {
      var t, x, y := a[1..] + [d] + b, Split(a[1..], d), Split(b, d);
      assert a == [a[0]] + a[1..] && a + [d] + b == [a[0]] + t;
      SplitConcat(a[1..], b, d);
      SplitCons(a[0], a[1..], d);
      SplitCons(a[0], t, d);
      assert (x + y)[0] == x[0] && (x + y)[1..] == x[1..] + y;
      assert [""] + (x + y) == ([""] + x) + y;
      assert [[a[0]] + x[0]] + (x[1..] + y) == ([[a[0]] + x[0]] + x[1..]) + y;
    }
  }

  lemma {:induction false} SplitParts(s: string, d: char)
    ensures forall x :: x in Split(s, d) ==> d !in x
  {
    if s != "" {
      SplitParts(s[1..], d);
      assert Split(s[1..], d)[0] in Split(s[1..], d);
    }
  }
}
