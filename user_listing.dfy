/** The admin user listing (`getAllUsers`): employers and talents merged,
    ordered newest first by a stable sort, and cut into one page. */
module UserListing {
  import opened Js

  /** `new Date(user.createdAt || 0).getTime()` for the values a stored
      document can hold there: a date gives its milliseconds, a number itself,
      `true` 1, and a missing or falsy value 0. */
  function CreatedTime(d: Doc): int
  {
    match Or(Get(d, "createdAt"), Num(0))
    case Date(ms) => ms
    case Num(n) => n
    case Bool(_) => 1
    case _ => 0
  }

  predicate NewestFirst(xs: seq<Doc>)
  {
    forall i, j :: 0 <= i < j < |xs| ==> CreatedTime(xs[i]) >= CreatedTime(xs[j])
  }

  /** Places `x` before the first element that is not newer than it. */
  function Insert(x: Doc, ys: seq<Doc>): seq<Doc>
  {
    if ys == [] || CreatedTime(x) >= CreatedTime(ys[0]) then [x] + ys
    else [ys[0]] + Insert(x, ys[1..])
  }

  /** `Array.prototype.sort` with the comparator `dateB - dateA`, which is a
      stable sort: insertion sort from the back. */
  function SortNewestFirst(xs: seq<Doc>): seq<Doc>
  {
    if xs == [] then [] else Insert(xs[0], SortNewestFirst(xs[1..]))
  }

  /** The users of `xs` created at time `t`, in their order in `xs`. */
  function CreatedAt(xs: seq<Doc>, t: int): seq<Doc>
  {
    if xs == [] then []
    else (if CreatedTime(xs[0]) == t then [xs[0]] else []) + CreatedAt(xs[1..], t)
  }

  lemma {:induction false} InsertAddsOne(x: Doc, ys: seq<Doc>)
    ensures multiset(Insert(x, ys)) == multiset(ys) + multiset{x}
  {
    if ys != [] && CreatedTime(x) < CreatedTime(ys[0]) {
      InsertAddsOne(x, ys[1..]);
      assert ys == [ys[0]] + ys[1..];
    }
  }

  /** Every element of `Insert(x, ys)` is `x` or an element of `ys`. */
  lemma InsertedFrom(x: Doc, ys: seq<Doc>, e: Doc)
    requires e in Insert(x, ys)
    ensures e == x || e in ys
  {
    InsertAddsOne(x, ys);
    assert e in multiset(Insert(x, ys));
  }

  lemma {:induction false} InsertKeepsOrder(x: Doc, ys: seq<Doc>)
    requires NewestFirst(ys)
    ensures NewestFirst(Insert(x, ys))
  {
    if ys == [] || CreatedTime(x) >= CreatedTime(ys[0]) {
      var r := [x] + ys;
      forall i, j | 0 <= i < j < |r| ensures CreatedTime(r[i]) >= CreatedTime(r[j]) {
        assert r[j] == ys[j - 1];
        if i > 0 {
          assert r[i] == ys[i - 1];
        }
      }
    } else {
      var tail := ys[1..];
      InsertKeepsOrder(x, tail);
      var rest := Insert(x, tail);
      var r := [ys[0]] + rest;
      forall i, j | 0 <= i < j < |r| ensures CreatedTime(r[i]) >= CreatedTime(r[j]) {
        assert r[j] == rest[j - 1];
        if i == 0 {
          InsertedFrom(x, tail, rest[j - 1]);
        } else {
          assert r[i] == rest[i - 1];
        }
      }
    }
  }

  /** The listing order is newest first and holds every user exactly once. */
  lemma {:induction false} SortIsNewestFirstPermutation(xs: seq<Doc>)
    ensures NewestFirst(SortNewestFirst(xs))
    ensures multiset(SortNewestFirst(xs)) == multiset(xs)
    ensures |SortNewestFirst(xs)| == |xs|
  {
    SortIsNewestFirst(xs);
    SortIsPermutation(xs);
    assert |multiset(SortNewestFirst(xs))| == |multiset(xs)|;
  }

  lemma {:induction false} SortIsNewestFirst(xs: seq<Doc>)
    ensures NewestFirst(SortNewestFirst(xs))
  {
    if xs != [] {
      SortIsNewestFirst(xs[1..]);
      InsertKeepsOrder(xs[0], SortNewestFirst(xs[1..]));
    }
  }

  lemma {:induction false} SortIsPermutation(xs: seq<Doc>)
    ensures multiset(SortNewestFirst(xs)) == multiset(xs)
  {
    if xs != [] {
      SortIsPermutation(xs[1..]);
      InsertAddsOne(xs[0], SortNewestFirst(xs[1..]));
      assert xs == [xs[0]] + xs[1..];
    }
  }

  lemma {:induction false} InsertIsStable(x: Doc, ys: seq<Doc>, t: int)
    requires NewestFirst(ys)
    ensures CreatedAt(Insert(x, ys), t) == CreatedAt([x], t) + CreatedAt(ys, t)
  {
    if ys == [] || CreatedTime(x) >= CreatedTime(ys[0]) {
      CreatedAtCons(x, ys, t);
    } else {
      var tail := ys[1..];
      NewestFirstTail(ys);
      InsertIsStable(x, tail, t);
      CreatedAtCons(ys[0], Insert(x, tail), t);
      CreatedAtCons(ys[0], tail, t);
      assert ys == [ys[0]] + tail;
    }
  }

  lemma CreatedAtCons(x: Doc, ys: seq<Doc>, t: int)
    ensures CreatedAt([x] + ys, t) == CreatedAt([x], t) + CreatedAt(ys, t)
  {
    assert ([x] + ys)[1..] == ys;
    assert CreatedAt([x], t) == (if CreatedTime(x) == t then [x] else []);
  }

  lemma NewestFirstTail(ys: seq<Doc>)
    requires ys != [] && NewestFirst(ys)
    ensures NewestFirst(ys[1..])
  {
    var tail := ys[1..];
    forall i, j | 0 <= i < j < |tail| ensures CreatedTime(tail[i]) >= CreatedTime(tail[j]) {
      assert tail[i] == ys[i + 1] && tail[j] == ys[j + 1];
    }
  }

  /** The sort is stable: users created at the same time keep their merged
      order (employers before talents, each in collection order). */
  lemma {:induction false} SortIsStable(xs: seq<Doc>, t: int)
    ensures CreatedAt(SortNewestFirst(xs), t) == CreatedAt(xs, t)
  {
    if xs != [] {
      SortIsStable(xs[1..], t);
      SortIsNewestFirstPermutation(xs[1..]);
      InsertIsStable(xs[0], SortNewestFirst(xs[1..]), t);
      assert CreatedAt([xs[0]], t) == (if CreatedTime(xs[0]) == t then [xs[0]] else []);
    }
  }

  /** `Math.ceil(total / size)`: size 0 gives Infinity, or NaN for 0 / 0. */
  datatype PageCount = Pages(n: int) | Infinite | NotANumber

  function TotalPages(total: nat, size: int): PageCount
  {
    if size == 0 then (if total == 0 then NotANumber else Infinite)
    else if size > 0 then Pages((total + size - 1) / size)
    else Pages(-(total / -size))
  }

  /** For a positive size the page count is the least number of pages of
      that size that hold every user. */
  lemma TotalPagesIsCeiling(total: nat, size: int)
    requires size > 0
    ensures TotalPages(total, size).Pages?
    ensures var n := TotalPages(total, size).n;
      n >= 0 && n * size >= total && (n - 1) * size < total && (total == 0 ==> n == 0)
  {
    var n := (total + size - 1) / size;
    var rem := (total + size - 1) % size;
    assert total + size - 1 == n * size + rem;
    assert (n - 1) * size == n * size - size;
  }

  /** A start or end argument of `Array.prototype.slice`: a negative index
      counts from the end, and both are clamped to the array. */
  function SliceIndex(i: int, len: nat): (r: nat)
    ensures r <= len
  {
    if i < 0 then (if len + i < 0 then 0 else len + i)
    else if i > len then len else i
  }

  /** `xs.slice(start, end)` */
  function Slice<T>(xs: seq<T>, start: int, end: int): seq<T>
  {
    var s := SliceIndex(start, |xs|);
    var e := SliceIndex(end, |xs|);
    if s < e then xs[s..e] else []
  }

  datatype Metadata = Metadata(total: nat, page: int, size: int, totalPages: PageCount)

  datatype Listing = Listing(data: seq<Doc>, metadata: Metadata)

  /** `getAllUsers(page, size)` over the two collections' documents. */
  function GetAllUsers(employers: seq<Doc>, talents: seq<Doc>, page: int, size: int): Listing
  {
    var allUsers := SortNewestFirst(employers + talents);
    var total := |allUsers|;
    var skip := (page - 1) * size;
    Listing(Slice(allUsers, skip, skip + size), Metadata(total, page, size, TotalPages(total, size)))
  }

  /** The metadata counts every employer and talent, echoes the page and the
      size, and the page count is the ceiling of total / size. */
  lemma ListingMetadata(employers: seq<Doc>, talents: seq<Doc>, page: int, size: int)
    ensures var m := GetAllUsers(employers, talents, page, size).metadata;
      && m.total == |employers| + |talents| && m.page == page && m.size == size
      && m.totalPages == TotalPages(|employers| + |talents|, size)
  {
    SortIsNewestFirstPermutation(employers + talents);
  }

  /** A slice from a non-negative start is the window of at most `len`
      elements from there. */
  lemma SliceWindow<T>(xs: seq<T>, start: int, len: int)
    requires start >= 0 && len >= 1
    ensures start >= |xs| ==> Slice(xs, start, start + len) == []
    ensures start < |xs| ==>
      Slice(xs, start, start + len) == xs[start..if start + len < |xs| then start + len else |xs|]
  {
  }

  lemma ProductNonNegative(a: int, b: int)
    requires a >= 0 && b >= 0
    ensures a * b >= 0
  {
  }

  /** For a positive page and size the data is the page's window of the
      newest-first order: at most `size` users, starting at `(page-1)*size`. */
  lemma PageWindow(employers: seq<Doc>, talents: seq<Doc>, page: int, size: int)
    requires page >= 1 && size >= 1
    ensures var all := SortNewestFirst(employers + talents);
      var skip := (page - 1) * size;
      var data := GetAllUsers(employers, talents, page, size).data;
      && skip >= 0
      && |data| <= size
      && (skip >= |all| ==> data == [])
      && (skip < |all| ==> data == all[skip..if skip + size < |all| then skip + size else |all|])
  {
    var all := SortNewestFirst(employers + talents);
    var skip := (page - 1) * size;
    ProductNonNegative(page - 1, size);
    SliceWindow(all, skip, size);
  }

  /** Where index `i` falls when cut into pages of `size`. */
  lemma PagePlacement(i: nat, size: int, total: nat, n: int)
    requires size >= 1 && i < total && n * size >= total
    ensures var skip := (i / size + 1 - 1) * size;
      skip >= 0 && skip <= i < skip + size && i % size == i - skip && i / size + 1 <= n
  {
    var q := i / size;
    assert i == q * size + i % size;
    assert (q + 1 - 1) * size == q * size;
    assert q * size <= i < total <= n * size;
  }

  /** In any sequence, index `i` sits at position `i % size` of the window
      of `size` elements that starts at `(i / size) * size`. */
  lemma IndexInWindow<T>(xs: seq<T>, i: nat, size: int, skip: int)
    requires size >= 1 && i < |xs| && skip == (i / size) * size
    ensures i % size < |Slice(xs, skip, skip + size)|
    ensures Slice(xs, skip, skip + size)[i % size] == xs[i]
  {
    var q := i / size;
    assert i == q * size + i % size;
    assert skip <= i < skip + size;
    SliceWindow(xs, skip, size);
    var end := if skip + size < |xs| then skip + size else |xs|;
    assert Slice(xs, skip, skip + size) == xs[skip..end];
  }

  /** Every user appears on page `i / size + 1`, at position `i % size`,
      where `i` is its place in the newest-first order, and that page is
      within the page count. */
  lemma UserOnItsPage(employers: seq<Doc>, talents: seq<Doc>, i: nat, size: int)
    requires size >= 1 && i < |employers| + |talents|
    ensures var all := SortNewestFirst(employers + talents);
      var page := i / size + 1;
      var data := GetAllUsers(employers, talents, page, size).data;
      && |all| == |employers| + |talents|
      && i % size < |data| && data[i % size] == all[i]
      && page <= TotalPages(|all|, size).n
  {
    var all := SortNewestFirst(employers + talents);
    SortIsNewestFirstPermutation(employers + talents);
    var page := i / size + 1;
    var skip := (page - 1) * size;
    assert skip == (i / size) * size;
    assert GetAllUsers(employers, talents, page, size).data == Slice(all, skip, skip + size);
    IndexInWindow(all, i, size, skip);
    TotalPagesIsCeiling(|all|, size);
    PagePlacement(i, size, |all|, TotalPages(|all|, size).n);
  }

  /** A page before the first one is empty. */
  lemma PageZeroIsEmpty(employers: seq<Doc>, talents: seq<Doc>, size: int)
    requires size >= 1
    ensures GetAllUsers(employers, talents, 0, size).data == []
  {
  }
}
