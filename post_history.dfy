/**
 * The dashboard's post history (`blog-dashboard/src/lib/post-history.tsx`, and
 * the copy of the class inside `blog-dashboard/src/app/page.tsx`): a list of
 * post records kept, newest first, in the browser's storage under one key.
 *
 * The storage is a shared object whose items are already-parsed JSON values;
 * whether a write succeeds is a parameter (`outcome`), since it depends on the
 * browser's quota. Timestamps are parameters and the date-based counts are
 * left out.
 */
module PostHistory {
  import opened Strings

  // ---------------------------------------------------------------------
  // Records and storage
  // ---------------------------------------------------------------------

  /** `string | number`; the two kinds never compare equal under `===`. */
  datatype PostId = TextId(text: string) | NumberId(n: int)

  datatype Status = Pending | Published | Failed

  /** A post record; an optional field is `None` when the key is absent. */
  datatype PostRecord = PostRecord(
    id: PostId, title: string, category: string, status: Status, timestamp: string,
    url: Option<string>, error: Option<string>, imageUrl: Option<string>, wordpressId: Option<int>)

  /** What the storage holds under a key, once parsed: an array of records, some other
      JSON value, or text that does not parse. */
  datatype Stored = Records(records: seq<PostRecord>) | NotAnArray | Unparsable

  /** The answer of one `setItem` call. */
  datatype SaveOutcome = Saved | QuotaExceeded | OtherError

  /** The browser's `localStorage`, shared by everything on the page. */
  class LocalStorage {
    var items: map<string, Stored>

    constructor (items: map<string, Stored>)
      ensures this.items == items
    {
      this.items := items;
    }
  }

  /** `getHistory()` on the stored value: the records when the key holds an array,
      otherwise nothing. */
  function Decode(v: Option<Stored>): (r: seq<PostRecord>)
    ensures v.None? || !v.value.Records? ==> r == []
    ensures v.Some? && v.value.Records? ==> r == v.value.records
  {
    match v
    case Some(Records(rs)) => rs
    case _ => []
  }

  function Lookup(items: map<string, Stored>, key: string): Option<Stored> {
    if key in items then Some(items[key]) else None
  }

  const MaxRecords := 100
  const ReducedRecords := 50

  /** `xs.slice(0, n)`. */
  function Take<T>(xs: seq<T>, n: nat): (r: seq<T>)
    ensures |r| == if |xs| < n then |xs| else n
    ensures r == xs[..|r|]
  {
    if |xs| <= n then xs else xs[..n]
  }

  // ---------------------------------------------------------------------
  // Updating a record
  // ---------------------------------------------------------------------

  /** `findIndex(p => p.id === id)`. */
  function FindIndex(history: seq<PostRecord>, id: PostId): (r: int)
    ensures -1 <= r < |history|
    ensures r == -1 <==> forall k :: 0 <= k < |history| ==> history[k].id != id
    ensures r != -1 ==> history[r].id == id && forall k :: 0 <= k < r ==> history[k].id != id
  {
    if history == [] then -1
    else if history[0].id == id then 0
    else
      var i := FindIndex(history[1..], id);
      if i == -1 then -1 else i + 1
  }

  /** `Partial<PostRecord>`: the fields given, each `None` when its key is absent. */
  datatype PostPatch = PostPatch(
    id: Option<PostId>, title: Option<string>, category: Option<string>, status: Option<Status>,
    timestamp: Option<string>, url: Option<string>, error: Option<string>,
    imageUrl: Option<string>, wordpressId: Option<int>)

  const NoPatch := PostPatch(None, None, None, None, None, None, None, None, None)

  function Pick<T>(v: Option<T>, d: T): T {
    if v.Some? then v.value else d
  }

  function PickOptional<T>(v: Option<T>, d: Option<T>): Option<T> {
    if v.Some? then v else d
  }

  /** `{ ...rec, status, ...patch }`: the status first, then every field the patch gives. */
  function Apply(rec: PostRecord, status: Status, patch: PostPatch): (r: PostRecord)
    ensures r.status == (if patch.status.Some? then patch.status.value else status)
    ensures patch.id.None? ==> r.id == rec.id
    ensures patch == NoPatch ==> r == rec.(status := status)
  {
    PostRecord(
      Pick(patch.id, rec.id), Pick(patch.title, rec.title), Pick(patch.category, rec.category),
      Pick(patch.status, status), Pick(patch.timestamp, rec.timestamp),
      PickOptional(patch.url, rec.url), PickOptional(patch.error, rec.error),
      PickOptional(patch.imageUrl, rec.imageUrl), PickOptional(patch.wordpressId, rec.wordpressId))
  }

  /** The history with the first record of `id` updated; unchanged without one. */
  function Updated(history: seq<PostRecord>, id: PostId, status: Status, patch: PostPatch): (r: seq<PostRecord>)
    ensures |r| == |history|
    ensures FindIndex(history, id) == -1 ==> r == history
    ensures FindIndex(history, id) != -1 ==>
      r[FindIndex(history, id)] == Apply(history[FindIndex(history, id)], status, patch)
    ensures forall k :: 0 <= k < |history| && k != FindIndex(history, id) ==> r[k] == history[k]
  {
    var i := FindIndex(history, id);
    if i == -1 then history else history[i := Apply(history[i], status, patch)]
  }

  // ---------------------------------------------------------------------
  // Statistics
  // ---------------------------------------------------------------------

  /** One category's counters. */
  datatype Stat = Stat(total: nat, success: nat, failed: nat)

  /** The counters after one more record of that category. */
  function Bump(s: Stat, status: Status): Stat {
    Stat(s.total + 1, s.success + (if status == Published then 1 else 0),
         s.failed + (if status == Failed then 1 else 0))
  }

  /** The statistics after counting one more record. */
  function Tally(stats: map<string, Stat>, rec: PostRecord): map<string, Stat> {
    var s := if rec.category in stats then stats[rec.category] else Stat(0, 0, 0);
    stats[rec.category := Bump(s, rec.status)]
  }

  /** `getStatsByCategory()` on `history`: the records counted from first to last. */
  function StatsOf(history: seq<PostRecord>): map<string, Stat>
    decreases |history|
  {
    if history == [] then map[] else Tally(StatsOf(history[..|history| - 1]), history[|history| - 1])
  }

  /** The number of records of category `c`. */
  function CountCategory(history: seq<PostRecord>, c: string): nat
    decreases |history|
  {
    if history == [] then 0
    else CountCategory(history[..|history| - 1], c) + (if history[|history| - 1].category == c then 1 else 0)
  }

  /** The number of records of category `c` with status `st`. */
  function CountWith(history: seq<PostRecord>, c: string, st: Status): nat
    decreases |history|
  {
    if history == [] then 0
    else
      var last := history[|history| - 1];
      CountWith(history[..|history| - 1], c, st) + (if last.category == c && last.status == st then 1 else 0)
  }

  /** The records of `c` with one status and those with another never outnumber the
      records of `c`. */
  lemma {:induction false} CountsWithin(history: seq<PostRecord>, c: string)
    ensures CountWith(history, c, Published) + CountWith(history, c, Failed) <= CountCategory(history, c)
    decreases |history|
  {
    if history != [] {
      CountsWithin(history[..|history| - 1], c);
    }
  }

  /** A category has counters exactly when some record has it, and they count its records,
      its published records and its failed records. */
  lemma {:induction false} StatsCount(history: seq<PostRecord>, c: string)
    ensures c in StatsOf(history) <==> CountCategory(history, c) > 0
    ensures c in StatsOf(history) ==>
      StatsOf(history)[c] == Stat(CountCategory(history, c), CountWith(history, c, Published), CountWith(history, c, Failed))
    decreases |history|
  {
    if history != [] {
      var front := history[..|history| - 1];
      var rec := history[|history| - 1];
      StatsCount(front, c);
      CountsWithin(front, c);
      if rec.category == c {
        var s := if c in StatsOf(front) then StatsOf(front)[c] else Stat(0, 0, 0);
        assert StatsOf(history)[c] == Bump(s, rec.status);
      } else {
        assert StatsOf(history) == StatsOf(front)[rec.category := StatsOf(history)[rec.category]];
      }
    }
  }

  /** Per category, successes and failures together never exceed the total. */
  lemma StatsWithinTotal(history: seq<PostRecord>, c: string)
    requires c in StatsOf(history)
    ensures StatsOf(history)[c].success + StatsOf(history)[c].failed <= StatsOf(history)[c].total
  {
    StatsCount(history, c);
    CountsWithin(history, c);
  }

  /** The categories in the order they first occur. */
  function Categories(history: seq<PostRecord>): (r: seq<string>)
    ensures forall c :: c in r <==> c in StatsOf(history)
    decreases |history|
  {
    if history == [] then []
    else
      var front := Categories(history[..|history| - 1]);
      var c := history[|history| - 1].category;
      if c in front then front else front + [c]
  }

  /** The categories are listed once each. */
  lemma {:induction false} CategoriesDistinct(history: seq<PostRecord>)
    ensures Distinct(Categories(history))
    decreases |history|
  {
    if history != [] {
      CategoriesDistinct(history[..|history| - 1]);
    }
  }

  predicate Distinct(xs: seq<string>) {
    forall i, j :: 0 <= i < j < |xs| ==> xs[i] != xs[j]
  }

  /** The sum of the totals of the categories `keys`. */
  function SumTotals(stats: map<string, Stat>, keys: seq<string>): nat
    requires forall c :: c in keys ==> c in stats
    decreases |keys|
  {
    if keys == [] then 0
    else SumTotals(stats, keys[..|keys| - 1]) + stats[keys[|keys| - 1]].total
  }

  /** Maps that agree on `keys` give the same sum. */
  lemma {:induction false} SumTotalsAgree(a: map<string, Stat>, b: map<string, Stat>, keys: seq<string>)
    requires forall c :: c in keys ==> c in a && c in b && a[c].total == b[c].total
    ensures SumTotals(a, keys) == SumTotals(b, keys)
    decreases |keys|
  {
    if keys != [] {
      SumTotalsAgree(a, b, keys[..|keys| - 1]);
    }
  }

  /** Adding one to the total of a key that occurs once adds one to the sum. */
  lemma {:induction false} SumTotalsBump(stats: map<string, Stat>, keys: seq<string>, c: string, s: Stat)
    requires forall k :: k in keys ==> k in stats
    requires Distinct(keys) && c in keys && s.total == stats[c].total + 1
    ensures SumTotals(stats[c := s], keys) == SumTotals(stats, keys) + 1
    decreases |keys|
  {
    var front := keys[..|keys| - 1];
    var last := keys[|keys| - 1];
    assert Distinct(front);
    if last == c {
      assert c !in front;
      SumTotalsAgree(stats[c := s], stats, front);
    } else {
      assert c in front;
      SumTotalsBump(stats, front, c, s);
    }
  }

  /** The per-category totals add up to the number of records. */
  lemma {:induction false} TotalsSumToLength(history: seq<PostRecord>)
    ensures SumTotals(StatsOf(history), Categories(history)) == |history|
    decreases |history|
  {
    if history != [] {
      var front := history[..|history| - 1];
      var rec := history[|history| - 1];
      var before := StatsOf(front);
      TotalsSumToLength(front);
      CategoriesDistinct(front);
      var s := if rec.category in before then before[rec.category] else Stat(0, 0, 0);
      if rec.category in Categories(front) {
        SumTotalsBump(before, Categories(front), rec.category, Bump(s, rec.status));
      } else {
        var keys := Categories(front) + [rec.category];
        assert keys[..|keys| - 1] == Categories(front);
        SumTotalsAgree(StatsOf(history), before, Categories(front));
      }
    }
  }

  // ---------------------------------------------------------------------
  // Success rate and export
  // ---------------------------------------------------------------------

  /** The number of records with status `st`. */
  function CountStatus(history: seq<PostRecord>, st: Status): (r: nat)
    ensures r <= |history|
  {
    if history == [] then 0 else (if history[0].status == st then 1 else 0) + CountStatus(history[1..], st)
  }

  /** `getSuccessRate()`: 100 for an empty history, otherwise `Math.round(100·published/n)`
      in exact arithmetic: the nearest whole percentage, halves rounded up. */
  function SuccessRate(history: seq<PostRecord>): (r: nat)
    ensures r <= 100
    ensures history == [] ==> r == 100
    ensures history != [] ==>
      var n := |history|;
      var s := CountStatus(history, Published);
      2 * n * r <= 200 * s + n < 2 * n * r + 2 * n
  {
    var n := |history|;
    if n == 0 then 100
    else
      var s := CountStatus(history, Published);
      RoundedPercent(s, n)
  }

  /** floor((200·s + n) / (2·n)), which is `Math.round(s / n * 100)` without the
      floating-point error. */
  function RoundedPercent(s: nat, n: nat): (r: nat)
    requires 0 < n && s <= n
    ensures r <= 100
    ensures 2 * n * r <= 200 * s + n < 2 * n * r + 2 * n
  {
    var a := 200 * s + n;
    var b := 2 * n;
    DivisionBounds(a, b, 101);
    a / b
  }

  /** The quotient brackets the dividend, and a dividend below `b·k` has a quotient
      below `k`. */
  lemma DivisionBounds(a: nat, b: nat, k: nat)
    requires 0 < b && a < b * k
    ensures b * (a / b) <= a < b * (a / b) + b
    ensures a / b < k
  {
    var q := a / b;
    assert a == b * q + a % b;
  }

  const CsvHeader := "ID,Title,Category,Status,Timestamp,URL"

  function StatusText(st: Status): string {
    match st
    case Pending => "pending"
    case Published => "published"
    case Failed => "failed"
  }

  function IdText(id: PostId): string {
    match id
    case TextId(t) => t
    case NumberId(n) => IntToString(n)
  }

  /** `s.replace(/"/g, '""')`. */
  function Escape(s: string): (r: string)
    ensures |r| >= |s|
    decreases |s|
  {
    if s == [] then [] else (if s[0] == '"' then "\"\"" else [s[0]]) + Escape(s[1..])
  }

  /** The inverse of `Escape`: a doubled quote reads as one. */
  function Unescape(s: string): string
    decreases |s|
  {
    if s == [] then []
    else if |s| >= 2 && s[0] == '"' && s[1] == '"' then "\"" + Unescape(s[2..])
    else [s[0]] + Unescape(s[1..])
  }

  /** Unescaping an escaped title gives the title back. */
  lemma {:induction false} UnescapeEscape(s: string)
    ensures Unescape(Escape(s)) == s
    decreases |s|
  {
    if s != [] {
      UnescapeEscape(s[1..]);
      var e := Escape(s[1..]);
      if s[0] == '"' {
        assert Escape(s) == "\"\"" + e;
        assert (("\"\"" + e)[2..]) == e;
      } else {
        assert Escape(s) == [s[0]] + e;
        assert ([s[0]] + e)[1..] == e;
      }
      assert s == [s[0]] + s[1..];
    }
  }

  /** Escaping adds no character other than quotes. */
  lemma {:induction false} EscapeKeeps(s: string, c: char)
    requires c != '"'
    ensures c in Escape(s) <==> c in s
    decreases |s|
  {
    if s != [] {
      EscapeKeeps(s[1..], c);
      assert s == [s[0]] + s[1..];
    }
  }

  /** The quoted title. */
  function QuotedTitle(title: string): string {
    "\"" + Escape(title) + "\""
  }

  /** The fields of one CSV row. */
  function RowFields(p: PostRecord): seq<string> {
    [IdText(p.id), QuotedTitle(p.title), p.category, StatusText(p.status), p.timestamp, Pick(p.url, "")]
  }

  function Rows(history: seq<PostRecord>): (r: seq<string>)
    ensures |r| == |history|
    ensures forall k :: 0 <= k < |history| ==> r[k] == Join(RowFields(history[k]), ",")
  {
    seq(|history|, k requires 0 <= k < |history| => Join(RowFields(history[k]), ","))
  }

  /** `exportToCSV()`: the header line, then one line per record. */
  function ExportCsv(history: seq<PostRecord>): string {
    Join([CsvHeader] + Rows(history), "\n")
  }

  /** A record whose texts have no line break. */
  predicate OneLine(p: PostRecord) {
    '\n' !in p.title && '\n' !in p.category && '\n' !in p.timestamp && '\n' !in Pick(p.url, "") &&
    '\n' !in IdText(p.id)
  }

  /** A row of a record without line breaks has none either. */
  lemma RowOneLine(p: PostRecord)
    requires OneLine(p)
    ensures '\n' !in Join(RowFields(p), ",")
  {
    EscapeKeeps(p.title, '\n');
    var fields := RowFields(p);
    assert '\n' !in fields[1];
    assert '\n' !in fields[3];
    JoinWithout(fields, ",", '\n');
  }

  /** When no text holds a line break, the export has one line for the header and one
      per record, in order. */
  lemma CsvLines(history: seq<PostRecord>)
    requires forall k :: 0 <= k < |history| ==> OneLine(history[k])
    ensures Split(ExportCsv(history), "\n") == [CsvHeader] + Rows(history)
    ensures |Split(ExportCsv(history), "\n")| == 1 + |history|
  {
    var lines := [CsvHeader] + Rows(history);
    forall k | 0 <= k < |lines|
      ensures "\n"[0] !in lines[k]
    {
      if k > 0 {
        RowOneLine(history[k - 1]);
      }
    }
    SplitJoin(lines, "\n");
  }

  /** The title field reads back as the title. */
  lemma TitleFieldRoundTrip(p: PostRecord)
    ensures Unescape(QuotedTitle(p.title)[1..|QuotedTitle(p.title)| - 1]) == p.title
  {
    var q := QuotedTitle(p.title);
    assert q[1..|q| - 1] == Escape(p.title);
    UnescapeEscape(p.title);
  }

  // ---------------------------------------------------------------------
  // The library's manager
  // ---------------------------------------------------------------------

  const LibraryKey := "blog_post_history"

  /** `PostHistoryManager` of `lib/post-history.tsx`; `browser` is false when it runs
      without a window, where it reads nothing and every write fails. */
  class PostHistoryManager {
    const storage: LocalStorage
    const browser: bool

    constructor (storage: LocalStorage, browser: bool)
      ensures this.storage == storage && this.browser == browser
    {
      this.storage := storage;
      this.browser := browser;
    }

    /** `getHistory()`. */
    function GetHistory(): (r: seq<PostRecord>)
      reads storage
      ensures !browser ==> r == []
      ensures browser ==> r == Decode(Lookup(storage.items, LibraryKey))
    {
      if !browser then [] else Decode(Lookup(storage.items, LibraryKey))
    }

    /** Writes `records` when the write succeeds; a failed write is only logged. */
    method Save(records: seq<PostRecord>, outcome: seq<PostRecord> -> SaveOutcome)
      modifies storage
      ensures storage.items == if browser && outcome(records) == Saved
        then old(storage.items)[LibraryKey := Records(records)] else old(storage.items)
    {
      if browser && outcome(records) == Saved {
        storage.items := storage.items[LibraryKey := Records(records)];
      }
    }

    /** `addPost(post)`: the new record, stamped `now`, goes first and the list keeps at
        most 100 records; the record is returned whether or not the write succeeds. */
    method AddPost(post: PostRecord, now: string, outcome: seq<PostRecord> -> SaveOutcome)
      returns (r: PostRecord)
      modifies storage
      ensures r == post.(timestamp := now)
      ensures var updated := Take([r] + old(GetHistory()), MaxRecords);
        storage.items == if browser && outcome(updated) == Saved
          then old(storage.items)[LibraryKey := Records(updated)] else old(storage.items)
    {
      r := post.(timestamp := now);
      var history := GetHistory();
      var updated := Take([r] + history, MaxRecords);
      Save(updated, outcome);
    }

    /** `updatePostStatus(id, status, additionalData)`: only the first record with the id
        changes, and nothing is written when no record has it. */
    method UpdatePostStatus(id: PostId, status: Status, patch: PostPatch, outcome: seq<PostRecord> -> SaveOutcome)
      modifies storage
      ensures var history := old(GetHistory());
        storage.items == if FindIndex(history, id) != -1 && browser && outcome(Updated(history, id, status, patch)) == Saved
          then old(storage.items)[LibraryKey := Records(Updated(history, id, status, patch))]
          else old(storage.items)
    {
      var history := GetHistory();
      var index := FindIndex(history, id);
      if index != -1 {
        var updated := history[index := Apply(history[index], status, patch)];
        Save(updated, outcome);
      }
    }

    /** `getStatsByCategory()`: the records counted one by one. */
    method GetStatsByCategory() returns (stats: map<string, Stat>)
      ensures stats == StatsOf(GetHistory())
    {
      var history := GetHistory();
      stats := map[];
      var i := 0;
      while i < |history|
        invariant 0 <= i <= |history|
        invariant stats == StatsOf(history[..i])
      {
        var post := history[i];
        if post.category !in stats {
          stats := stats[post.category := Stat(0, 0, 0)];
        }
        var s := stats[post.category];
        stats := stats[post.category := Bump(s, post.status)];
        assert history[..i + 1][..i] == history[..i];
        i := i + 1;
      }
      assert history[..|history|] == history;
    }

    /** `getSuccessRate()`. */
    function GetSuccessRate(): (r: nat)
      reads storage
      ensures r <= 100
      ensures GetHistory() == [] ==> r == 100
    {
      SuccessRate(GetHistory())
    }

    /** `clearHistory()`: the key is removed, so the history reads as empty; without a
        window the call fails and is only logged. */
    method ClearHistory()
      modifies storage
      ensures storage.items == if browser then old(storage.items) - {LibraryKey} else old(storage.items)
      ensures GetHistory() == []
    {
      if browser {
        storage.items := storage.items - {LibraryKey};
      }
    }

    /** `exportToCSV()`. */
    function ExportToCsv(): string
      reads storage
    {
      ExportCsv(GetHistory())
    }
  }

  /** The stored list never grows past 100 records through `addPost`. */
  lemma AddPostBounded(history: seq<PostRecord>, r: PostRecord)
    ensures |Take([r] + history, MaxRecords)| <= MaxRecords
    ensures Take([r] + history, MaxRecords)[0] == r
    ensures Take([r] + history, MaxRecords)[1..] == Take(history, MaxRecords - 1)
  {
    var t := Take([r] + history, MaxRecords);
    assert ([r] + history)[1..] == history;
    assert t[1..] == ([r] + history)[1..|t|];
  }

  // ---------------------------------------------------------------------
  // The page's manager
  // ---------------------------------------------------------------------

  const PageKey := "postHistory"

  /** The `PostHistoryManager` class inside `app/page.tsx`: it saves through a helper that
      truncates to 100 records and, on a quota failure, tries again with 50. */
  class PageHistoryManager {
    const storage: LocalStorage

    constructor (storage: LocalStorage)
      ensures this.storage == storage
    {
      this.storage := storage;
    }

    function GetHistory(): (r: seq<PostRecord>)
      reads storage
      ensures r == Decode(Lookup(storage.items, PageKey))
    {
      Decode(Lookup(storage.items, PageKey))
    }

    /** `saveHistory(posts)`: the first 100 records; on a quota failure, the first 50. A
        failure of that second write escapes (`raised`); any other failure is logged. */
    method SaveHistory(posts: seq<PostRecord>, outcome: seq<PostRecord> -> SaveOutcome) returns (raised: bool)
      modifies storage
      ensures var full := Take(posts, MaxRecords);
        var reduced := Take(posts, ReducedRecords);
        if outcome(full) == Saved then storage.items == old(storage.items)[PageKey := Records(full)] && !raised
        else if outcome(full) == QuotaExceeded && outcome(reduced) == Saved then
          storage.items == old(storage.items)[PageKey := Records(reduced)] && !raised
        else storage.items == old(storage.items) && raised == (outcome(full) == QuotaExceeded)
    {
      var toSave := Take(posts, MaxRecords);
      if outcome(toSave) == Saved {
        storage.items := storage.items[PageKey := Records(toSave)];
        return false;
      }
      if outcome(toSave) == QuotaExceeded {
        var reduced := Take(posts, ReducedRecords);
        if outcome(reduced) == Saved {
          storage.items := storage.items[PageKey := Records(reduced)];
          return false;
        }
        return true;
      }
      return false;
    }

    /** `addPost(post)`: the record, stamped `now`, goes in front of the stored ones. */
    method AddPost(post: PostRecord, now: string, outcome: seq<PostRecord> -> SaveOutcome) returns (raised: bool)
      modifies storage
      ensures var posts := [post.(timestamp := now)] + old(GetHistory());
        var full := Take(posts, MaxRecords);
        var reduced := Take(posts, ReducedRecords);
        if outcome(full) == Saved then storage.items == old(storage.items)[PageKey := Records(full)] && !raised
        else if outcome(full) == QuotaExceeded && outcome(reduced) == Saved then
          storage.items == old(storage.items)[PageKey := Records(reduced)] && !raised
        else storage.items == old(storage.items) && raised == (outcome(full) == QuotaExceeded)
    {
      var posts := GetHistory();
      posts := [post.(timestamp := now)] + posts;
      raised := SaveHistory(posts, outcome);
    }

    /** `updatePostStatus(id, status, updates)`: only the first record with the id changes;
        with no such record nothing is written. */
    method UpdatePostStatus(id: PostId, status: Status, patch: PostPatch, outcome: seq<PostRecord> -> SaveOutcome)
      returns (raised: bool)
      modifies storage
      ensures FindIndex(old(GetHistory()), id) == -1 ==> storage.items == old(storage.items) && !raised
      ensures FindIndex(old(GetHistory()), id) != -1 ==>
        var posts := Updated(old(GetHistory()), id, status, patch);
        var full := Take(posts, MaxRecords);
        var reduced := Take(posts, ReducedRecords);
        if outcome(full) == Saved then storage.items == old(storage.items)[PageKey := Records(full)] && !raised
        else if outcome(full) == QuotaExceeded && outcome(reduced) == Saved then
          storage.items == old(storage.items)[PageKey := Records(reduced)] && !raised
        else storage.items == old(storage.items) && raised == (outcome(full) == QuotaExceeded)
    {
      var posts := GetHistory();
      var index := FindIndex(posts, id);
      raised := false;
      if index != -1 {
        posts := posts[index := Apply(posts[index], status, patch)];
        raised := SaveHistory(posts, outcome);
      }
    }

    /** `getSuccessRate()`. */
    function GetSuccessRate(): (r: nat)
      reads storage
      ensures r <= 100
      ensures GetHistory() == [] ==> r == 100
    {
      SuccessRate(GetHistory())
    }

    /** `clearHistory()`. */
    method ClearHistory()
      modifies storage
      ensures storage.items == old(storage.items) - {PageKey}
      ensures GetHistory() == []
    {
      storage.items := storage.items - {PageKey};
    }

    /** `exportToCSV()`: the same text as the library's export. */
    function ExportToCsv(): string
      reads storage
    {
      ExportCsv(GetHistory())
    }
  }
}
