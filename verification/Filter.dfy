/** The filter of the live report: which probers match, and how the matches are cut into pages. */
module Filter {
  import opened Runs
  import opened Pipeline

  datatype Prober = Prober(name: string, kind: string)

  /** The parts of a stored result that the filter looks at. */
  datatype Stored = Stored(endpoint: string, status: Status, message: string, sla: real)

  predicate OccursAt(s: string, part: string, i: nat) {
    i + |part| <= |s| && s[i..i + |part|] == part
  }

  predicate Contains(s: string, part: string) {
    exists i: nat | i <= |s| :: OccursAt(s, part, i)
  }

  /** What is asked for; an empty text and a missing status match everything. */
  datatype Criteria = Criteria(
    name: string, kind: string, endpoint: string, status: seq<Status>, message: string,
    slaGreater: real, slaLess: real)

  predicate MatchesProber(c: Criteria, p: Prober) {
    && (c.name == "" || Contains(p.name, c.name))
    && (c.kind == "" || p.kind == c.kind)
  }

  predicate MatchesResult(c: Criteria, r: Stored) {
    && (c.endpoint == "" || Contains(r.endpoint, c.endpoint))
    && (c.status == [] || r.status == c.status[0])
    && (c.message == "" || Contains(r.message, c.message))
    && c.slaGreater <= r.sla <= c.slaLess
  }

  predicate Accepts(c: Criteria, p: Prober, data: map<string, Stored>) {
    MatchesProber(c, p) && p.name in data && MatchesResult(c, data[p.name])
  }

  /** The matching probers, in the order of the list. */
  function AllMatches(c: Criteria, probers: seq<Prober>, data: map<string, Stored>): seq<Prober> {
    if probers == [] then []
    else if Accepts(c, Last(probers), data) then AllMatches(c, ButLast(probers), data) + [Last(probers)]
    else AllMatches(c, ButLast(probers), data)
  }

  class SLAFilter {
    var name: string
    var kind: string
    var endpoint: string
    /** Empty, or the one status asked for. */
    var status: seq<Status>
    var slaGreater: real
    var slaLess: real
    var message: string
    var pageNum: int
    var pageSize: int
    var total: int
    var cnt: int

    ghost function Asked(): Criteria
      reads this
    {
      Criteria(name, kind, endpoint, status, message, slaGreater, slaLess)
    }

    /** Every prober whose result the filter looks at has a stored result. */
    ghost predicate Covers(probers: seq<Prober>, data: map<string, Stored>)
      reads this
    {
      forall p :: p in probers && MatchesProber(Asked(), p) ==> p.name in data
    }

    constructor ()
      ensures name == kind == endpoint == message == "" && status == []
      ensures slaGreater == 0.0 && slaLess == 100.0 && pageNum == 1 && pageSize == 100
    {
      name, kind, endpoint, message := "", "", "", "";
      status := [];
      slaGreater, slaLess := 0.0, 100.0;
      pageNum, pageSize := 1, 100;
      total, cnt := 0, 0;
    }

    method GetIndices() returns (start: int, end: int)
      ensures start == (pageNum - 1) * pageSize && end == pageNum * pageSize - 1
    {
      start := (pageNum - 1) * pageSize;
      end := pageNum * pageSize - 1;
    }

    /**
     Every page counts all matches, and holds its window of them. The stored result is only needed of the
     probers that pass the name and kind criteria.
     */
    method Filter(probers: seq<Prober>, data: map<string, Stored>) returns (result: seq<Prober>)
      requires Covers(probers, data)
      modifies this`cnt, this`total
      ensures cnt == |AllMatches(old(Asked()), probers, data)| && total == |probers|
      ensures result == Page(AllMatches(old(Asked()), probers, data), pageNum, pageSize)
    {
      ghost var c := Asked();
      var start, end := GetIndices();
      cnt := 0;
      result := [];
      var i := 0;
      while i < |probers|
        invariant 0 <= i <= |probers|
        invariant Asked() == c
        invariant cnt == |AllMatches(c, probers[..i], data)|
        invariant result == Window(AllMatches(c, probers[..i], data), start, end)
      {
        var p := probers[i];
        i := i + 1;
        assert ButLast(probers[..i]) == probers[..i - 1] && Last(probers[..i]) == p;
        if name != "" && !Contains(p.name, name) {
          continue;
        }
        if kind != "" && p.kind != kind {
          continue;
        }
        var r := data[p.name];
        if endpoint != "" && !Contains(r.endpoint, endpoint) {
          continue;
        }
        if status != [] && r.status != status[0] {
          continue;
        }
        if message != "" && !Contains(r.message, message) {
          continue;
        }
        if r.sla < slaGreater || r.sla > slaLess {
          continue;
        }
        WindowPush(AllMatches(c, probers[..i - 1], data), p, start, end);
        if cnt >= start && cnt <= end {
          result := result + [p];
        }
        cnt := cnt + 1;
      }
      assert probers[..|probers|] == probers;
      total := |probers|;
    }
  }

  // ----- what a match is

  /** A text contains a part exactly when it can be cut into something, the part, and something. */
  lemma {:induction false} ContainsIffInfix(s: string, part: string)
    ensures Contains(s, part) <==> exists before, after :: s == before + part + after
  {
    if Contains(s, part) {
      var i: nat :| i <= |s| && OccursAt(s, part, i);
      assert s == s[..i] + part + s[i + |part|..];
    }
    if before, after :| s == before + part + after {
      assert OccursAt(s, part, |before|);
    }
  }

  /** Everything asked for holds of a match. */
  lemma {:induction false} MatchesAreAsked(c: Criteria, probers: seq<Prober>, data: map<string, Stored>, p: Prober)
    requires p in AllMatches(c, probers, data)
    ensures p in probers && p.name in data
    ensures c.name != "" ==> Contains(p.name, c.name)
    ensures c.kind != "" ==> p.kind == c.kind
    ensures c.endpoint != "" ==> Contains(data[p.name].endpoint, c.endpoint)
    ensures c.status != [] ==> data[p.name].status == c.status[0]
    ensures c.message != "" ==> Contains(data[p.name].message, c.message)
    ensures c.slaGreater <= data[p.name].sla <= c.slaLess
  {
    if p in AllMatches(c, ButLast(probers), data) {
      MatchesAreAsked(c, ButLast(probers), data, p);
    }
  }

  /** And every prober of which all that is asked for holds is a match. */
  lemma {:induction false} NoMatchIsMissed(c: Criteria, probers: seq<Prober>, data: map<string, Stored>, p: Prober)
    requires p in probers && p.name in data
    requires c.name == "" || Contains(p.name, c.name)
    requires c.kind == "" || p.kind == c.kind
    requires c.endpoint == "" || Contains(data[p.name].endpoint, c.endpoint)
    requires c.status == [] || data[p.name].status == c.status[0]
    requires c.message == "" || Contains(data[p.name].message, c.message)
    requires c.slaGreater <= data[p.name].sla <= c.slaLess
    ensures p in AllMatches(c, probers, data)
  {
    if p != Last(probers) {
      assert p in ButLast(probers);
      NoMatchIsMissed(c, ButLast(probers), data, p);
    }
  }

  lemma {:induction false} MatchesAppend(c: Criteria, a: seq<Prober>, b: seq<Prober>, data: map<string, Stored>)
    ensures AllMatches(c, a + b, data) == AllMatches(c, a, data) + AllMatches(c, b, data)
  {
    if b == [] {
      assert a + b == a;
    } else {
      MatchesAppend(c, a, ButLast(b), data);
      assert ButLast(a + b) == a + ButLast(b);
    }
  }

  function MatchCount(c: Criteria, probers: seq<Prober>, data: map<string, Stored>, s: Status): nat {
    |AllMatches(c.(status := [s]), probers, data)|
  }

  /** Every match has one status: asking for each of them in turn finds each match once. */
  lemma {:induction false} StatusesPartition(c: Criteria, probers: seq<Prober>, data: map<string, Stored>)
    requires c.status == []
    ensures MatchCount(c, probers, data, Init) + MatchCount(c, probers, data, Up) + MatchCount(c, probers, data, Down)
          + MatchCount(c, probers, data, Unknown) + MatchCount(c, probers, data, Bad) == |AllMatches(c, probers, data)|
  {
    if probers != [] {
      StatusesPartition(c, ButLast(probers), data);
    }
  }

  /** The elements whose index lies between `start` and `end`, both included. */
  function Window<T>(s: seq<T>, start: int, end: int): seq<T> {
    if s == [] then []
    else if start <= |s| - 1 <= end then Window(ButLast(s), start, end) + [Last(s)]
    else Window(ButLast(s), start, end)
  }

  lemma {:induction false} WindowPush<T>(s: seq<T>, x: T, start: int, end: int)
    ensures Window(s + [x], start, end) == if start <= |s| <= end then Window(s, start, end) + [x] else Window(s, start, end)
  {
    assert ButLast(s + [x]) == s;
  }

  // ----- pages

  function Page<T>(s: seq<T>, num: int, size: int): seq<T> {
    Window(s, (num - 1) * size, num * size - 1)
  }

  /** A window is a slice, cut off at the end of the list. */
  lemma {:induction false} WindowIsSlice<T>(s: seq<T>, start: int, end: int)
    requires 0 <= start <= end
    ensures Window(s, start, end) == s[Min(start, |s|)..Min(end + 1, |s|)]
  {
    if s != [] {
      WindowIsSlice(ButLast(s), start, end);
    }
  }

  lemma {:induction false} QuotientBounds(i: int, size: int)
    requires size >= 1
    ensures i / size * size <= i < i / size * size + size
  {
  }

  lemma {:induction false} ScaleOrder(a: int, b: int, size: int)
    requires size >= 1 && a <= b
    ensures a * size <= b * size
  {
  }

  /** Every index lies between the first and the last index of exactly one page: pages adjoin and do not overlap. */
  lemma {:induction false} PageOfIndex(i: int, num: int, size: int)
    requires size >= 1
    ensures (num - 1) * size <= i <= num * size - 1 <==> num == i / size + 1
  {
    var q := i / size;
    QuotientBounds(i, size);
    assert num * size == (num - 1) * size + size;
    if num <= q {
      ScaleOrder(num, q, size);
    } else if num - 1 > q {
      ScaleOrder(q + 1, num - 1, size);
      assert (q + 1) * size == q * size + size;
    }
  }

  lemma {:induction false} WindowBehindEnd<T>(s: seq<T>, start: int, end: int)
    requires start >= |s|
    ensures Window(s, start, end) == []
  {
    if s != [] {
      WindowBehindEnd(ButLast(s), start, end);
    }
  }

  lemma {:induction false} PageBounds(num: int, size: int)
    requires num >= 1 && size >= 1
    ensures 0 <= (num - 1) * size
    ensures num * size == (num - 1) * size + size
  {
  }

  /** Page `num` is the slice of the matches from (num-1)*size to num*size. */
  lemma {:induction false} PageIsSlice<T>(s: seq<T>, num: int, size: int)
    requires num >= 1 && size >= 1
    ensures 0 <= (num - 1) * size <= num * size
    ensures Page(s, num, size) == s[Min((num - 1) * size, |s|)..Min(num * size, |s|)]
  {
    PageBounds(num, size);
    var start, end := (num - 1) * size, num * size;
    WindowIsSlice(s, start, end - 1);
  }

  function PageCount(cnt: int, size: int): int
    requires size >= 1
  {
    cnt / size + 1
  }

  /** Pages 1, ..., n one after the other. */
  function Pages<T>(s: seq<T>, n: nat, size: int): seq<T> {
    if n == 0 then [] else Pages(s, n - 1, size) + Page(s, n, size)
  }

  lemma {:induction false} PagesArePrefix<T>(s: seq<T>, n: nat, size: int)
    requires size >= 1
    ensures n * size >= 0
    ensures Pages(s, n, size) == s[..Min(n * size, |s|)]
  {
    if n > 0 {
      PagesArePrefix(s, n - 1, size);
      PageIsSlice(s, n, size);
      assert s[..Min((n - 1) * size, |s|)] + s[Min((n - 1) * size, |s|)..Min(n * size, |s|)] == s[..Min(n * size, |s|)];
    }
  }

  lemma {:induction false} DivisionBounds(cnt: nat, size: nat)
    requires size >= 1
    ensures cnt / size * size <= cnt < (cnt / size + 1) * size
  {
  }

  lemma {:induction false} LaterPageStart(cnt: nat, size: nat, num: int)
    requires size >= 1 && num > PageCount(cnt, size)
    ensures (num - 1) * size > cnt
  {
    DivisionBounds(cnt, size);
    assert (num - 1) * size >= PageCount(cnt, size) * size;
  }

  /** Pagination is a partition: the announced pages, one after the other, are all matches in order. */
  lemma {:induction false} PagesPartitionMatches<T>(s: seq<T>, size: int)
    requires size >= 1
    ensures Pages(s, PageCount(|s|, size), size) == s
  {
    DivisionBounds(|s|, size);
    PagesArePrefix(s, PageCount(|s|, size), size);
  }

  /** Every page behind the announced ones is empty. */
  lemma {:induction false} LaterPagesAreEmpty<T>(s: seq<T>, size: int, num: int)
    requires size >= 1 && num > PageCount(|s|, size)
    ensures Page(s, num, size) == []
  {
    LaterPageStart(|s|, size, num);
    WindowBehindEnd(s, (num - 1) * size, num * size - 1);
  }

  lemma {:induction false} RemainderIsRest(cnt: nat, size: nat)
    requires size >= 1
    ensures cnt % size == cnt - cnt / size * size
  {
  }

  /** The announced page count is one too large exactly when the matches fill their pages completely. */
  lemma {:induction false} LastPageIsEmptyIff<T>(s: seq<T>, size: int)
    requires size >= 1
    ensures Page(s, PageCount(|s|, size), size) == [] <==> |s| % size == 0
  {
    var q := |s| / size;
    DivisionBounds(|s|, size);
    RemainderIsRest(|s|, size);
    var start, end := q * size, (q + 1) * size;
    WindowIsSlice(s, start, end - 1);
  }
}
