/** Sequence operations used by the clients, the orchestrator and the writer:
    Python's stable `sorted(key=...)`, "parse each item, drop the failures",
    `sum`/`min`/`max`, day-by-day accumulation, and upsert into a keyed table. */
module Seqs {
  import opened Wrappers

  predicate SortedBy<T>(s: seq<T>, key: T -> int) {
    forall i, j :: 0 <= i < j < |s| ==> key(s[i]) <= key(s[j])
  }

  /** Inserts `x` after every element whose key is not larger than its own. */
  function InsertBy<T(==)>(x: T, s: seq<T>, key: T -> int): (r: seq<T>)
    requires SortedBy(s, key)
    ensures |r| == |s| + 1
    ensures multiset(r) == multiset(s) + multiset{x}
    ensures r[0] == x || (s != [] && r[0] == s[0])
    ensures SortedBy(r, key)
  {
    if s == [] then [x]
    else if key(x) < key(s[0]) then [x] + s
    else
      var rest := InsertBy(x, s[1..], key);
      assert s == [s[0]] + s[1..];
      assert key(s[0]) <= key(rest[0]);
      [s[0]] + rest
  }

  /** `sorted(s, key=key)`: a stable insertion sort. */
  function SortBy<T(==)>(s: seq<T>, key: T -> int): (r: seq<T>)
    ensures |r| == |s|
    ensures multiset(r) == multiset(s)
    ensures SortedBy(r, key)
  {
    if s == [] then []
    else
      assert s == s[..|s| - 1] + [s[|s| - 1]];
      InsertBy(s[|s| - 1], SortBy(s[..|s| - 1], key), key)
  }

  lemma {:induction false} InsertLargestAppends<T>(x: T, s: seq<T>, key: T -> int)
    requires SortedBy(s, key)
    requires forall i :: 0 <= i < |s| ==> key(s[i]) <= key(x)
    ensures InsertBy(x, s, key) == s + [x]
  {
    if s != [] {
      InsertLargestAppends(x, s[1..], key);
    }
  }

  /** Sorting input that is already in key order changes nothing: equal keys
      keep their input order. */
  lemma {:induction false} SortBySortedIsIdentity<T>(s: seq<T>, key: T -> int)
    requires SortedBy(s, key)
    ensures SortBy(s, key) == s
  {
    if s != [] {
      var init := s[..|s| - 1];
      SortBySortedIsIdentity(init, key);
      InsertLargestAppends(s[|s| - 1], init, key);
    }
  }

  /** The elements of `s` whose key is `k`, in order. */
  function WithKey<T>(s: seq<T>, key: T -> int, k: int): seq<T> {
    if s == [] then [] else (if key(s[0]) == k then [s[0]] else []) + WithKey(s[1..], key, k)
  }

  lemma {:induction false} WithKeyConcat<T>(a: seq<T>, b: seq<T>, key: T -> int, k: int)
    ensures WithKey(a + b, key, k) == WithKey(a, key, k) + WithKey(b, key, k)
  {
    if a != [] {
      assert (a + b)[1..] == a[1..] + b;
      WithKeyConcat(a[1..], b, key, k);
    } else {
      assert a + b == b;
    }
  }

  lemma {:induction false} WithKeyAbove<T>(s: seq<T>, key: T -> int, k: int)
    requires forall i :: 0 <= i < |s| ==> key(s[i]) > k
    ensures WithKey(s, key, k) == []
  {
    if s != [] {
      WithKeyAbove(s[1..], key, k);
    }
  }

  /** Inserting `x` puts it after every element with its key. */
  lemma {:induction false} WithKeyInsert<T>(x: T, s: seq<T>, key: T -> int, k: int)
    requires SortedBy(s, key)
    ensures WithKey(InsertBy(x, s, key), key, k) == WithKey(s, key, k) + WithKey([x], key, k)
  {
    assert WithKey([x], key, k) == if key(x) == k then [x] else [];
    if s == [] {
    } else if key(x) < key(s[0]) {
      assert ([x] + s)[1..] == s;
      if key(x) == k {
        WithKeyAbove(s, key, k);
      }
    } else {
      var rest := InsertBy(x, s[1..], key);
      WithKeyInsert(x, s[1..], key, k);
      assert ([s[0]] + rest)[1..] == rest;
    }
  }

  /** `sorted` is stable: for every key, the elements carrying it come out in
      the order they went in. */
  lemma {:induction false} SortByStable<T>(s: seq<T>, key: T -> int, k: int)
    ensures WithKey(SortBy(s, key), key, k) == WithKey(s, key, k)
  {
    if s != [] {
      var init := s[..|s| - 1];
      var x := s[|s| - 1];
      var sorted := SortBy(init, key);
      assert s == init + [x];
      calc {
        WithKey(SortBy(s, key), key, k);
        WithKey(InsertBy(x, sorted, key), key, k);
        { WithKeyInsert(x, sorted, key, k); }
        WithKey(sorted, key, k) + WithKey([x], key, k);
        { SortByStable(init, key, k); }
        WithKey(init, key, k) + WithKey([x], key, k);
        { WithKeyConcat(init, [x], key, k); }
        WithKey(s, key, k);
      }
    }
  }

  /** The loop `for item in items: try: out.append(parse(item)) except: skip`:
      the successful parses, in input order. */
  function Parsed<R, T(==)>(items: seq<R>, parse: R -> Result<T>): (r: seq<T>)
    ensures |r| <= |items|
    ensures (forall i :: 0 <= i < |items| ==> parse(items[i]).Ok?) ==> |r| == |items|
  {
    if items == [] then []
    else
      var init := Parsed(items[..|items| - 1], parse);
      assert forall i :: 0 <= i < |items| - 1 ==> items[..|items| - 1][i] == items[i];
      match parse(items[|items| - 1])
      case Ok(v) => init + [v]
      case Err(_) => init
  }

  /** The items that survive parsing, in input order. */
  lemma {:induction false} ParsedKeepsEveryGoodItem<R, T>(items: seq<R>, parse: R -> Result<T>, i: int)
    requires 0 <= i < |items| && parse(items[i]).Ok?
    ensures parse(items[i]).value in Parsed(items, parse)
  {
    if i < |items| - 1 {
      assert items[..|items| - 1][i] == items[i];
      ParsedKeepsEveryGoodItem(items[..|items| - 1], parse, i);
    }
  }

  /** Membership in the parsed list: exactly the successful parses. */
  lemma {:induction false} ParsedMembership<R, T>(items: seq<R>, parse: R -> Result<T>, x: T)
    ensures x in Parsed(items, parse) <==> exists i :: 0 <= i < |items| && parse(items[i]) == Ok(x)
  {
    if exists i :: 0 <= i < |items| && parse(items[i]) == Ok(x) {
      var i :| 0 <= i < |items| && parse(items[i]) == Ok(x);
      ParsedKeepsEveryGoodItem(items, parse, i);
    } else if items != [] {
      var init := items[..|items| - 1];
      ParsedMembership(init, parse, x);
      assert forall i :: 0 <= i < |init| ==> init[i] == items[i];
    }
  }

  /** `response.get("data", [])`, iterated: a missing key is an empty list, a
      JSON null cannot be iterated. */
  function DataItems<R>(data: JsonField<seq<R>>): (r: Result<seq<R>>)
    ensures r.Ok? <==> !data.Null?
    ensures data.Present? ==> r == Ok(data.value)
    ensures data.Absent? ==> r == Ok([])
  {
    match data
    case Absent => Ok([])
    case Null => Err(TypeError("'NoneType' object is not iterable"))
    case Present(items) => Ok(items)
  }

  /** The parse loop run step by step. */
  method ParseAll<R, T(==)>(items: seq<R>, parse: R -> Result<T>) returns (out: seq<T>)
    ensures out == Parsed(items, parse)
  {
    out := [];
    var i := 0;
    while i < |items|
      invariant 0 <= i <= |items|
      invariant out == Parsed(items[..i], parse)
    {
      assert items[..i + 1][..i] == items[..i];
      match parse(items[i]) {
        case Ok(v) => out := out + [v];
        case Err(_) =>
      }
      i := i + 1;
    }
    assert items[..|items|] == items;
  }

  /** Sorting keeps exactly the elements it is given. */
  lemma SortByMembership<T>(s: seq<T>, key: T -> int, x: T)
    ensures x in SortBy(s, key) <==> x in s
  {
    assert x in SortBy(s, key) <==> x in multiset(SortBy(s, key));
    assert x in s <==> x in multiset(s);
  }

  function Sum(s: seq<int>): int {
    if s == [] then 0 else Sum(s[..|s| - 1]) + s[|s| - 1]
  }

  /** `min(s)` (the value; Python returns the first minimal element) */
  function Min(s: seq<int>): (m: int)
    requires |s| > 0
    ensures m in s && forall i :: 0 <= i < |s| ==> m <= s[i]
  {
    if |s| == 1 then s[0]
    else
      var m := Min(s[..|s| - 1]);
      assert forall i :: 0 <= i < |s| - 1 ==> s[..|s| - 1][i] == s[i];
      if s[|s| - 1] < m then s[|s| - 1] else m
  }

  /** `max(s)` */
  function Max(s: seq<int>): (m: int)
    requires |s| > 0
    ensures m in s && forall i :: 0 <= i < |s| ==> s[i] <= m
  {
    if |s| == 1 then s[0]
    else
      var m := Max(s[..|s| - 1]);
      assert forall i :: 0 <= i < |s| - 1 ==> s[..|s| - 1][i] == s[i];
      if s[|s| - 1] > m then s[|s| - 1] else m
  }

  /** Bounding every element bounds the sum. */
  lemma {:induction false} SumBetween(s: seq<int>, lo: int, hi: int)
    requires forall i :: 0 <= i < |s| ==> lo <= s[i] <= hi
    ensures lo * |s| <= Sum(s) <= hi * |s|
  {
    if s != [] {
      var init := s[..|s| - 1];
      assert forall i :: 0 <= i < |init| ==> init[i] == s[i];
      SumBetween(init, lo, hi);
      assert lo * |s| == lo * |init| + lo;
      assert hi * |s| == hi * |init| + hi;
    }
  }

  function OrEmpty<T>(r: Result<seq<T>>): seq<T> {
    if r.Ok? then r.value else []
  }

  /** `while d <= end: try: out.extend(fetch(d)) except: skip; d += 1`:
      what a day-by-day loop that skips failing days accumulates. */
  function CollectDays<T>(fetch: int -> Result<seq<T>>, first: int, last: int): seq<T>
    decreases last - first
  {
    if first > last then [] else OrEmpty(fetch(first)) + CollectDays(fetch, first + 1, last)
  }

  /** Every accumulated element comes from a day of the window whose fetch
      succeeded; a window with first > last accumulates nothing. */
  lemma {:induction false} CollectDaysOrigin<T>(fetch: int -> Result<seq<T>>, first: int, last: int, k: int)
    requires 0 <= k < |CollectDays(fetch, first, last)|
    decreases last - first
    ensures first <= last
    ensures exists d, j :: (first <= d <= last && fetch(d).Ok? && 0 <= j < |fetch(d).value|
                           && fetch(d).value[j] == CollectDays(fetch, first, last)[k])
  {
    var head := OrEmpty(fetch(first));
    if k < |head| {
      assert fetch(first).value[k] == CollectDays(fetch, first, last)[k];
    } else {
      CollectDaysOrigin(fetch, first + 1, last, k - |head|);
    }
  }

  /** Every successful day of the window contributes all of its elements,
      after those of the days before it and before those of the days after it. */
  lemma {:induction false} CollectDaysComplete<T>(fetch: int -> Result<seq<T>>, first: int, last: int, d: int)
    requires first <= d <= last && fetch(d).Ok?
    decreases last - first
    ensures CollectDays(fetch, first, last)
            == CollectDays(fetch, first, d - 1) + fetch(d).value + CollectDays(fetch, d + 1, last)
  {
    if d != first {
      CollectDaysComplete(fetch, first + 1, last, d);
      assert CollectDays(fetch, first, d - 1) == OrEmpty(fetch(first)) + CollectDays(fetch, first + 1, d - 1);
    }
  }

  /** The day-by-day loop one day further on. */
  lemma {:induction false} CollectDaysSnoc<T>(fetch: int -> Result<seq<T>>, first: int, last: int)
    requires first <= last
    decreases last - first
    ensures CollectDays(fetch, first, last) == CollectDays(fetch, first, last - 1) + OrEmpty(fetch(last))
  {
    if first < last {
      CollectDaysSnoc(fetch, first + 1, last);
    }
  }

  /** The value of the last row whose key is `k`, if any. */
  function LastValue<K(==), V>(rows: seq<(K, V)>, k: K): Option<V> {
    if rows == [] then None
    else if rows[|rows| - 1].0 == k then Some(rows[|rows| - 1].1)
    else LastValue(rows[..|rows| - 1], k)
  }

  /** An upsert of `rows`, in order, into a table keyed by the conflict key. */
  function Upsert<K(==), V>(table: map<K, V>, rows: seq<(K, V)>): map<K, V> {
    if rows == [] then table
    else Upsert(table, rows[..|rows| - 1])[rows[|rows| - 1].0 := rows[|rows| - 1].1]
  }

  /** After an upsert a key holds the value of the last row carrying it, or
      its old value when no row carries it; no other key appears. */
  lemma {:induction false} UpsertLastWins<K, V>(table: map<K, V>, rows: seq<(K, V)>, k: K)
    ensures k in Upsert(table, rows) <==> k in table || LastValue(rows, k).Some?
    ensures LastValue(rows, k).Some? ==> Upsert(table, rows)[k] == LastValue(rows, k).value
    ensures LastValue(rows, k).None? && k in table ==> Upsert(table, rows)[k] == table[k]
  {
    if rows != [] {
      UpsertLastWins(table, rows[..|rows| - 1], k);
    }
  }

  /** No two rows carry the same key. */
  predicate DistinctKeys<K(==), V>(rows: seq<(K, V)>) {
    forall i, j :: 0 <= i < j < |rows| ==> rows[i].0 != rows[j].0
  }

  /** With distinct keys, the row carrying a key is the last one carrying it. */
  lemma {:induction false} DistinctLastValue<K, V>(rows: seq<(K, V)>, i: int)
    requires DistinctKeys(rows) && 0 <= i < |rows|
    ensures LastValue(rows, rows[i].0) == Some(rows[i].1)
  {
    if i < |rows| - 1 {
      var init := rows[..|rows| - 1];
      assert init[i] == rows[i];
      assert DistinctKeys(init) by {
        forall a, b | 0 <= a < b < |init|
          ensures init[a].0 != init[b].0
        {
          assert init[a] == rows[a] && init[b] == rows[b];
        }
      }
      DistinctLastValue(init, i);
    }
  }

  /** Re-running the same upsert leaves the table as the first run left it. */
  lemma UpsertIdempotent<K, V>(table: map<K, V>, rows: seq<(K, V)>)
    ensures Upsert(Upsert(table, rows), rows) == Upsert(table, rows)
  {
    var once := Upsert(table, rows);
    var twice := Upsert(once, rows);
    forall k: K | k in twice
      ensures k in once && twice[k] == once[k]
    {
      UpsertLastWins(table, rows, k);
      UpsertLastWins(once, rows, k);
    }
    forall k: K | k in once
      ensures k in twice
    {
      UpsertLastWins(once, rows, k);
    }
    MapsAgree(twice, once);
  }

  lemma MapsAgree<K, V>(a: map<K, V>, b: map<K, V>)
    requires forall k :: k in a <==> k in b
    requires forall k :: k in a ==> a[k] == b[k]
    ensures a == b
  {
  }
}
