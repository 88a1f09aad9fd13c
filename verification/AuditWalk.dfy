/** GET /audit: pages of the audit log by id, and what a client that follows next_cursor sees. */
module AuditWalk {
  import opened Wrappers

  datatype Entry = Entry(action: string, merchant: Option<string>, space: Option<string>, createdAt: int)

  const MAX_ID: int := 0x7fff_ffff_ffff_ffff

  /** audit_log by its serial id, a 64-bit integer; rows are only ever appended. */
  type Log = log: map<nat, Entry> | forall id | id in log :: id <= MAX_ID

  datatype Filter = Filter(merchant: Option<string>, space: Option<string>, action: Option<string>, since: Option<int>)

  predicate Passes(e: Entry, f: Filter) {
    && (f.merchant.Some? ==> e.merchant == f.merchant)
    && (f.space.Some? ==> e.space == f.space)
    && (f.action.Some? ==> e.action == f.action.value)
    && (f.since.Some? ==> e.createdAt > f.since.value)
  }

  /** The rows of every page from this cursor on. */
  function Matching(log: Log, f: Filter, cursor: Option<int>): set<nat> {
    set id | id in log && Passes(log[id], f) && (cursor.Some? ==> id < cursor.value)
  }

  predicate Descending(ids: seq<nat>) {
    forall i, j :: 0 <= i < j < |ids| ==> ids[i] > ids[j]
  }

  /** ORDER BY id DESC LIMIT limit. */
  ghost predicate IsPage(log: Log, f: Filter, cursor: Option<int>, limit: nat, ids: seq<nat>) {
    && Descending(ids) && |ids| <= limit
    && (forall i :: 0 <= i < |ids| ==> ids[i] in Matching(log, f, cursor))
    && (|ids| < limit ==> forall id :: id in Matching(log, f, cursor) ==> id in ids)
    && (forall i, id :: 0 <= i < |ids| && id in Matching(log, f, cursor) && id !in ids ==> id < ids[i])
  }

  // ---- Cursors as text ----

  function DigitChar(d: nat): char
    requires d < 10
  {
    "0123456789"[d]
  }

  predicate IsDigit(c: char) {
    '0' <= c <= '9'
  }

  function DigitValue(c: char): nat
    requires IsDigit(c)
  {
    (c as int) - ('0' as int)
  }

  /** Sprintf("%d", n). */
  function Decimal(n: nat): (s: string)
    ensures s != "" && forall i :: 0 <= i < |s| ==> IsDigit(s[i])
  {
    if n < 10 then [DigitChar(n)] else Decimal(n / 10) + [DigitChar(n % 10)]
  }

  function ScanDigits(s: string, acc: nat): nat {
    if s == "" || !IsDigit(s[0]) then acc else ScanDigits(s[1..], 10 * acc + DigitValue(s[0]))
  }

  /** Sscanf(v, "%d") into 64 bits: an optional sign, then the leading digits; text without any, or
      with too many, is no cursor at all. */
  function ParseCursor(s: string): Option<int> {
    var signed := s != "" && (s[0] == '-' || s[0] == '+');
    var digits := if signed then s[1..] else s;
    if digits == "" || !IsDigit(digits[0]) then None
    else
      var n: int := ScanDigits(digits, 0);
      var value := if signed && s[0] == '-' then -n else n;
      if -MAX_ID - 1 <= value <= MAX_ID then Some(value) else None
  }

  lemma {:induction false} ScanLast(s: string, c: char, acc: nat)
    requires (forall i :: 0 <= i < |s| ==> IsDigit(s[i])) && IsDigit(c)
    ensures ScanDigits(s + [c], acc) == 10 * ScanDigits(s, acc) + DigitValue(c)
    decreases |s|
  {
    if s == "" {
      assert s + [c] == [c] && [c][1..] == "";
    } else {
      assert (s + [c])[0] == s[0] && (s + [c])[1..] == s[1..] + [c];
      ScanLast(s[1..], c, 10 * acc + DigitValue(s[0]));
    }
  }

  lemma {:induction false} ScanDecimal(n: nat)
    ensures ScanDigits(Decimal(n), 0) == n
  {
    if n < 10 {
      assert [DigitChar(n)][1..] == "";
    } else {
      ScanDecimal(n / 10);
      ScanLast(Decimal(n / 10), DigitChar(n % 10), 0);
    }
  }

  lemma {:induction false} ScanStops(s: string, rest: string, acc: nat)
    requires (forall i :: 0 <= i < |s| ==> IsDigit(s[i])) && (rest == "" || !IsDigit(rest[0]))
    ensures ScanDigits(s + rest, acc) == ScanDigits(s, acc)
    decreases |s|
  {
    if s == "" {
      assert s + rest == rest;
    } else {
      assert (s + rest)[0] == s[0] && (s + rest)[1..] == s[1..] + rest;
      ScanStops(s[1..], rest, 10 * acc + DigitValue(s[0]));
    }
  }

  lemma ReadsTo(digits: string, n: nat)
    requires digits != "" && IsDigit(digits[0]) && ScanDigits(digits, 0) == n
    ensures n < 0x8000_0000_0000_0000 ==> ParseCursor(digits) == Some(n) && ParseCursor("+" + digits) == Some(n)
    ensures n < 0x8000_0000_0000_0000 ==> ParseCursor("-" + digits).Some? && ParseCursor("-" + digits).value + n == 0
    ensures n > 0x8000_0000_0000_0000 ==> ParseCursor(digits) == ParseCursor("+" + digits) == ParseCursor("-" + digits) == None
  {
    assert ("-" + digits)[0] == '-' && ("-" + digits)[1..] == digits;
    assert ("+" + digits)[0] == '+' && ("+" + digits)[1..] == digits;
  }

  /** A cursor is read up to its last leading digit; text that begins with neither digit nor sign, and a
      number too large for 64 bits, is none. */
  lemma CursorIsLeadingNumber(n: nat, rest: string)
    requires rest == "" || !IsDigit(rest[0])
    ensures var text := Decimal(n) + rest;
      && (n < 0x8000_0000_0000_0000 ==>
            && ParseCursor(text) == Some(n) && ParseCursor("+" + text) == Some(n)
            && ParseCursor("-" + text).Some? && ParseCursor("-" + text).value + n == 0)
      && (n > 0x8000_0000_0000_0000 ==> ParseCursor(text) == ParseCursor("+" + text) == ParseCursor("-" + text) == None)
    ensures rest == "" || (rest[0] != '-' && rest[0] != '+') ==> ParseCursor(rest) == None
  {
    var digits := Decimal(n);
    ScanDecimal(n);
    ScanStops(digits, rest, 0);
    assert (digits + rest)[0] == digits[0];
    ReadsTo(digits + rest, n);
  }

  /** The cursor a client passes back is the id it was made from. */
  lemma CursorRoundTrip(n: nat)
    requires n <= MAX_ID
    ensures ParseCursor(Decimal(n)) == Some(n)
  {
    ScanDecimal(n);
  }

  // ---- The store method and the handler ----

  const PAGE: nat := 50

  class Audit {
    var log: Log

    constructor ()
      ensures log == map[]
    {
      log := map[];
    }

    method Newest(among: set<nat>) returns (id: nat)
      requires among != {}
      ensures id in among && forall other :: other in among ==> other <= id
    {
      id :| id in among;
      var rest := among - {id};
      while rest != {}
        invariant id in among && rest <= among
        invariant forall other :: other in among && other !in rest ==> other <= id
        decreases rest
      {
        var other :| other in rest;
        rest := rest - {other};
        if other > id {
          id := other;
        }
      }
    }

    method ListAuditEntries(f: Filter, cursor: Option<int>, limit: int) returns (ids: seq<nat>)
      ensures IsPage(log, f, cursor, if limit <= 0 then 50 else limit, ids)
    {
      var most := if limit <= 0 then 50 else limit;
      ids := [];
      var rest := Matching(log, f, cursor);
      while |ids| < most && rest != {}
        invariant |ids| <= most && rest <= Matching(log, f, cursor) && Descending(ids)
        invariant forall i :: 0 <= i < |ids| ==> ids[i] in Matching(log, f, cursor)
        invariant forall id :: id in Matching(log, f, cursor) ==> id in ids || id in rest
        invariant forall i, id :: 0 <= i < |ids| && id in rest ==> id < ids[i]
        decreases rest
      {
        var id := Newest(rest);
        rest := rest - {id};
        ids := ids + [id];
      }
    }

    /** One page and the cursor of the next: none unless the page is full. */
    method GetAudit(f: Filter, cursor: string) returns (ids: seq<nat>, next: Option<string>)
      ensures IsPage(log, f, ParseCursor(cursor), PAGE, ids)
      ensures |ids| <= 50 && (next.Some? <==> |ids| == 50)
      ensures next.Some? ==> next.value != "" && ParseCursor(next.value) == Some(ids[|ids| - 1])
    {
      var from := None;
      if cursor != "" {
        from := ParseCursor(cursor);
      }
      ids := ListAuditEntries(f, from, PAGE);
      next := None;
      if |ids| == PAGE && |ids| > 0 {
        var last := ids[|ids| - 1];
        CursorRoundTrip(last);
        next := Some(Decimal(last));
      }
    }
  }

  // ---- Walking the pages ----

  /** What the log has become after rows with larger ids were appended. */
  ghost predicate Extends(log0: Log, log: Log) {
    && (forall id | id in log0 :: id in log && log[id] == log0[id])
    && (forall id, old_ | id in log && id !in log0 && old_ in log0 :: id > old_)
  }

  /** Pages fetched one after the other, each from the log as it then was and by the cursor of the
      previous page, which had to be full to have one. */
  ghost predicate IsWalk(logs: seq<Log>, f: Filter, cursor: Option<int>, limit: nat, pages: seq<seq<nat>>)
    decreases pages
  {
    && 0 < |pages| == |logs|
    && IsPage(logs[0], f, cursor, limit, pages[0])
    && (|pages| > 1 ==> |pages[0]| == limit > 0 && IsWalk(logs[1..], f, Some(pages[0][limit - 1]), limit, pages[1..]))
  }

  /** The last page has no next_cursor. */
  predicate Ended(pages: seq<seq<nat>>, limit: nat) {
    pages != [] && |pages[|pages| - 1]| < limit
  }

  function Flatten(pages: seq<seq<nat>>): seq<nat> {
    if pages == [] then [] else pages[0] + Flatten(pages[1..])
  }

  lemma {:induction false} DistinctCount(ids: seq<nat>, members: set<nat>)
    requires Descending(ids) && forall id :: id in members <==> id in ids
    ensures |members| == |ids|
    decreases |ids|
  {
    if ids == [] {
      assert members == {};
    } else {
      var n := |ids| - 1;
      assert forall id :: id in ids <==> id in ids[..n] || id == ids[n];
      DistinctCount(ids[..n], members - {ids[n]});
    }
  }

  /** Below a row of the first log, later logs hold nothing new. */
  lemma SameBelow(log0: Log, log: Log, f: Filter, cursor: nat)
    requires Extends(log0, log) && cursor in log0
    ensures Matching(log, f, Some(cursor)) == Matching(log0, f, Some(cursor))
  {
  }

  /** A full page takes the first `limit` matching rows; what it leaves is what its cursor selects. */
  lemma PageSplits(log: Log, f: Filter, cursor: Option<int>, limit: nat, ids: seq<nat>)
    requires IsPage(log, f, cursor, limit, ids) && |ids| == limit > 0
    ensures forall id :: id in Matching(log, f, cursor) <==> id in ids || id in Matching(log, f, Some(ids[limit - 1]))
    ensures forall id :: id in ids ==> id !in Matching(log, f, Some(ids[limit - 1]))
    ensures |Matching(log, f, cursor)| == limit + |Matching(log, f, Some(ids[limit - 1]))|
  {
    var taken := set id | id in ids;
    var left := Matching(log, f, Some(ids[limit - 1]));
    DistinctCount(ids, taken);
    assert Matching(log, f, cursor) == taken + left;
  }

  /** A full page followed by what a walk from its cursor lists. */
  lemma PageThenRest(log: Log, f: Filter, cursor: Option<int>, limit: nat, page: seq<nat>, rest: seq<nat>)
    requires IsPage(log, f, cursor, limit, page) && |page| == limit > 0
    requires Descending(rest) && forall id :: id in rest ==> id in Matching(log, f, Some(page[limit - 1]))
    ensures Descending(page + rest)
    ensures forall id :: id in page + rest ==> id in Matching(log, f, cursor)
  {
    PageSplits(log, f, cursor, limit, page);
    forall i, j | 0 <= i < limit <= j < limit + |rest|
      ensures (page + rest)[i] > (page + rest)[j]
    {
      assert rest[j - limit] in rest;
      assert page[i] >= page[limit - 1];
    }
  }

  lemma OneMorePage(pages: nat, n: nat, limit: nat)
    ensures (pages - 1) * limit <= n ==> pages * limit <= limit + n
    ensures n < pages * limit ==> limit + n < (pages + 1) * limit
  {
    assert pages * limit == (pages - 1) * limit + limit;
    assert (pages + 1) * limit == pages * limit + limit;
  }

  lemma {:induction false} WalkFrom(log0: Log, logs: seq<Log>, f: Filter, cursor: Option<int>, limit: nat, pages: seq<seq<nat>>)
    requires limit > 0 && IsWalk(logs, f, cursor, limit, pages)
    requires forall i :: 0 <= i < |logs| ==> Extends(log0, logs[i])
    requires Matching(logs[0], f, cursor) == Matching(log0, f, cursor)
    ensures Descending(Flatten(pages))
    ensures forall id :: id in Flatten(pages) ==> id in Matching(log0, f, cursor)
    ensures (|pages| - 1) * limit <= |Matching(log0, f, cursor)|
    ensures Ended(pages, limit) ==> |Flatten(pages)| == |Matching(log0, f, cursor)| < |pages| * limit
    decreases pages
  {
    var page := pages[0];
    if |pages| > 1 {
      var last, rest := page[limit - 1], pages[1..];
      assert last in Matching(log0, f, cursor);
      SameBelow(log0, logs[0], f, last);
      SameBelow(log0, logs[1], f, last);
      WalkFrom(log0, logs[1..], f, Some(last), limit, rest);
      PageSplits(logs[0], f, cursor, limit, page);
      PageThenRest(logs[0], f, cursor, limit, page, Flatten(rest));
      OneMorePage(|rest|, |Matching(log0, f, Some(last))|, limit);
      assert Ended(pages, limit) ==> Ended(rest, limit);
    } else {
      assert pages[1..] == [] && Flatten(pages) == page;
      if |page| < limit {
        DistinctCount(page, Matching(log0, f, cursor));
      }
    }
  }

  lemma AllOfThem(ids: seq<nat>, all: set<nat>)
    requires Descending(ids) && (forall id :: id in ids ==> id in all) && |ids| == |all|
    ensures forall id :: id in all ==> id in ids
  {
    var listed := set id | id in ids;
    DistinctCount(ids, listed);
    assert all == listed + (all - listed);
  }

  /** Following next_cursor from the first page goes on for n / limit + 1 pages at most, n being
      the rows that matched at the start; when it ends, it has listed each of those exactly once,
      newest first, and nothing else: whatever the filter, the page size and the rows appended meanwhile. */
  lemma WalkListsEverything(logs: seq<Log>, f: Filter, limit: nat, pages: seq<seq<nat>>)
    requires limit > 0 && IsWalk(logs, f, None, limit, pages)
    requires forall i :: 0 <= i < |logs| ==> Extends(logs[0], logs[i])
    ensures (|pages| - 1) * limit <= |Matching(logs[0], f, None)|
    ensures Descending(Flatten(pages))
    ensures forall id :: id in Flatten(pages) ==> id in Matching(logs[0], f, None)
    ensures Ended(pages, limit) ==> forall id :: id in Flatten(pages) <==>
      && id in logs[0]
      && (f.merchant == None || logs[0][id].merchant == f.merchant)
      && (f.space == None || logs[0][id].space == f.space)
      && (f.action == None || logs[0][id].action == f.action.value)
      && (f.since == None || f.since.value < logs[0][id].createdAt)
    ensures Ended(pages, limit) ==> |Matching(logs[0], f, None)| < |pages| * limit
  {
    WalkFrom(logs[0], logs, f, None, limit, pages);
    if Ended(pages, limit) {
      AllOfThem(Flatten(pages), Matching(logs[0], f, None));
    }
  }
}
