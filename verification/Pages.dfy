/** Resumable legal-action pages: signed cursors bound to one result set, and their iteration. */
module Pages {
  import opened Options
  import opened Json
  import opened Base64

  const PREFIX := "ep2"
  const MAX_ACTION_LIMIT: nat := 200
  const DEFAULT_PAGE_LIMIT: nat := 50
  const MAX_CURSOR: nat := 1024
  const SIGNATURE: nat := 64

  // ---- cursors ----

  /** What JSON decoding of a cursor payload finds. */
  datatype Payload = Malformed | OtherKeys | Fields(version: Json, scope: Json, offset: Json)

  /** Canonical JSON and the keyed hash, as they are given. */
  datatype Codec = Codec(write: (string, nat) -> seq<Byte>, read: seq<Byte> -> Payload, mac: string -> string)

  predicate Ascii(s: string) {
    forall i | 0 <= i < |s| :: s[i] as int < 128
  }

  ghost predicate Faithful(c: Codec) {
    (forall scope: string, n: nat :: c.read(c.write(scope, n)) == Fields(JInt(2), JStr(scope), JInt(n))) &&
    (forall text :: |c.mac(text)| == SIGNATURE && Ascii(c.mac(text)) && NoSeparator(c.mac(text)))
  }

  function ActionCursor(c: Codec, scope: string, offset: nat): string {
    var payload := Encode(c.write(scope, offset));
    PREFIX + "." + payload + "." + c.mac(payload)
  }

  function FirstDot(s: string): (k: nat)
    ensures k <= |s| && NoSeparator(s[..k]) && (k < |s| ==> s[k] == '.')
  {
    if s == "" || s[0] == '.' then 0
    else
      var k := FirstDot(s[1..]);
      assert s[..k + 1] == [s[0]] + s[1..][..k];
      k + 1
  }

  function Split(s: string): seq<string>
    decreases |s|
  {
    var k := FirstDot(s);
    if k == |s| then [s] else [s[..k]] + Split(s[k + 1..])
  }

  predicate IsDecimal(s: string) {
    s != "" && forall i | 0 <= i < |s| :: '0' <= s[i] <= '9'
  }

  function DecimalValue(s: string): nat
    requires forall i | 0 <= i < |s| :: '0' <= s[i] <= '9'
  {
    if s == "" then 0 else DecimalValue(s[..|s| - 1]) * 10 + (s[|s| - 1] as int - '0' as int)
  }

  /** The checks on a decoded payload: exact fields, exact version and scope, a natural offset. */
  function BoundOffset(p: Payload, scope: string): Option<nat> {
    if p.Fields? && p.version == JInt(2) && p.scope == JStr(scope) && p.offset.JInt? && p.offset.i >= 0
    then Some(p.offset.i) else None
  }

  /** `_cursor_offset`; `None` is the `ValueError`. */
  function CursorOffset(c: Codec, cursor: Option<string>, scope: string, allowLegacy: bool): Option<nat> {
    if cursor == None || cursor.value == "" then Some(0)
    else
      var text := cursor.value;
      if |text| > MAX_CURSOR then None
      else if allowLegacy && IsDecimal(text) then Some(DecimalValue(text))
      else
        var parts := Split(text);
        if |parts| != 3 || parts[0] != PREFIX || |parts[2]| != SIGNATURE || !Ascii(parts[2]) then None
        else if parts[2] != c.mac(parts[1]) then None
        else
          var raw := Decode(parts[1]);
          if raw == None then None else BoundOffset(c.read(raw.value), scope)
  }

  lemma {:induction false} FirstDotAt(a: string, b: string)
    requires NoSeparator(a)
    ensures FirstDot(a + "." + b) == |a|
  {
    var s := a + "." + b;
    if a == "" {
      assert s[0] == '.';
    } else {
      assert s[0] == a[0] && s[1..] == a[1..] + "." + b;
      FirstDotAt(a[1..], b);
    }
  }

  lemma SplitsHead(a: string, b: string)
    requires NoSeparator(a)
    ensures Split(a + "." + b) == [a] + Split(b)
  {
    var s := a + "." + b;
    FirstDotAt(a, b);
    assert s[..|a|] == a && s[|a| + 1..] == b;
  }

  lemma {:induction false} SplitsWhole(a: string)
    requires NoSeparator(a)
    ensures Split(a) == [a]
  {
    assert FirstDot(a) == |a| && a[..|a|] == a;
  }

  lemma SplitsInThree(a: string, b: string, d: string)
    requires NoSeparator(a) && NoSeparator(b) && NoSeparator(d)
    ensures Split(a + "." + b + "." + d) == [a, b, d]
  {
    hide Split, NoSeparator;
    SplitsHead(a, b + "." + d);
    SplitsHead(b, d);
    SplitsWhole(d);
    assert a + "." + b + "." + d == a + "." + (b + "." + d);
  }

  /** A cursor is read back under its own scope as its own offset, under any other scope not at all. */
  lemma CursorRoundTrip(c: Codec, made: string, offset: nat, scope: string, allowLegacy: bool)
    requires Faithful(c) && |ActionCursor(c, made, offset)| <= MAX_CURSOR
    ensures CursorOffset(c, Some(ActionCursor(c, made, offset)), scope, allowLegacy)
            == if scope == made then Some(offset) else None
  {
    var raw := c.write(made, offset);
    var payload := Encode(raw);
    var text := ActionCursor(c, made, offset);
    RoundTrip(raw);
    EncodedShape(raw);
    SplitsInThree(PREFIX, payload, c.mac(payload));
    assert text[0] == 'e';
  }

  /** Whatever cursor is accepted carries the keyed hash of its payload and the scope it is used under. */
  lemma AcceptedCursorIsSigned(c: Codec, text: string, scope: string)
    requires text != "" && CursorOffset(c, Some(text), scope, false).Some?
    ensures |text| <= MAX_CURSOR && |Split(text)| == 3 && Split(text)[2] == c.mac(Split(text)[1])
    ensures Decode(Split(text)[1]).Some? && c.read(Decode(Split(text)[1]).value).Fields?
    ensures c.read(Decode(Split(text)[1]).value).scope == JStr(scope)
  {
  }

  // ---- rows and pages ----

  /** The searchable fields of an action descriptor. */
  datatype Row = Row(token: string, title: string, shortLabel: string, promptLabel: string, group: string, category: string)

  predicate OccursAt(text: string, needle: string, k: nat) {
    k + |needle| <= |text| && text[k..k + |needle|] == needle
  }

  predicate Contains(text: string, needle: string) {
    exists k: nat | k <= |text| :: OccursAt(text, needle, k)
  }

  predicate Matches(r: Row, query: string, fold: string -> string) {
    var needle := fold(query);
    Contains(fold(r.token), needle) || Contains(fold(r.title), needle) || Contains(fold(r.shortLabel), needle) ||
    Contains(fold(r.promptLabel), needle) || Contains(fold(r.group), needle) || Contains(fold(r.category), needle)
  }

  function Keep(rows: seq<Row>, query: string, fold: string -> string): seq<Row> {
    if rows == [] then []
    else (if Matches(rows[0], query, fold) then [rows[0]] else []) + Keep(rows[1..], query, fold)
  }

  function Filtered(rows: seq<Row>, query: Option<string>, fold: string -> string): seq<Row> {
    if query == None || query.value == "" then rows else Keep(rows, query.value, fold)
  }

  /** Filtering keeps every matching row as often as it occurs, and no other. */
  lemma {:induction false} KeepCounts(rows: seq<Row>, query: string, fold: string -> string, r: Row)
    ensures multiset(Keep(rows, query, fold))[r] == if Matches(r, query, fold) then multiset(rows)[r] else 0
  {
    if rows != [] {
      KeepCounts(rows[1..], query, fold, r);
      assert rows == [rows[0]] + rows[1..];
      var head := if Matches(rows[0], query, fold) then [rows[0]] else [];
      assert multiset(head + Keep(rows[1..], query, fold)) == multiset(head) + multiset(Keep(rows[1..], query, fold));
      assert multiset([rows[0]] + rows[1..]) == multiset([rows[0]]) + multiset(rows[1..]);
    }
  }

  lemma {:induction false} KeepConcat(a: seq<Row>, b: seq<Row>, query: string, fold: string -> string)
    ensures Keep(a + b, query, fold) == Keep(a, query, fold) + Keep(b, query, fold)
  {
    hide Matches;
    if a == [] {
      assert a + b == b;
    } else {
      KeepConcat(a[1..], b, query, fold);
      assert (a + b)[1..] == a[1..] + b;
    }
  }

  /** A requested page size: a boolean or something `int()` refuses, or the integer it yields. */
  datatype Limit = Unusable | Number(n: int)

  /** The page size allowed that is nearest to the one requested; 50 when there is none. */
  function BoundedLimit(limit: Limit): (n: nat)
    ensures 1 <= n <= 200 && (limit.Unusable? ==> n == 50)
    ensures limit.Number? ==> forall m | 1 <= m <= 200 :: Distance(n, limit.n) <= Distance(m, limit.n)
  {
    if limit.Unusable? then DEFAULT_PAGE_LIMIT
    else if limit.n < 1 then 1 else if limit.n > MAX_ACTION_LIMIT then MAX_ACTION_LIMIT else limit.n
  }

  function Distance(a: int, b: int): nat { if a < b then b - a else a - b }

  datatype Page = Page(rows: seq<Row>, next: Option<string>, total: nat, matching: nat, hasMore: bool)

  /** What a cursor is bound to; `digest` hashes it. */
  datatype ScopeKey = ScopeKey(stateHash: string, player: string, query: Option<string>, descriptors: seq<Row>)

  /** One request for a page: the state's rows if the player is the active human, none otherwise. */
  datatype Request = Request(stateHash: string, player: string, isActiveHuman: bool, query: Option<string>)

  function Descriptors(q: Request, legal: seq<Row>): seq<Row> {
    if q.isActiveHuman then legal else []
  }

  function KeyOf(q: Request, legal: seq<Row>): ScopeKey {
    ScopeKey(q.stateHash, q.player, q.query, Descriptors(q, legal))
  }

  function Scope(q: Request, legal: seq<Row>, digest: ScopeKey -> string): string {
    digest(KeyOf(q, legal))
  }

  function LegalActionPage(c: Codec, digest: ScopeKey -> string, fold: string -> string, q: Request, legal: seq<Row>,
      limit: Limit, cursor: Option<string>, allowLegacy: bool): Option<Page>
  {
    var rows := Descriptors(q, legal);
    var matching := Filtered(rows, q.query, fold);
    var scope := Scope(q, legal, digest);
    var offset := CursorOffset(c, cursor, scope, allowLegacy);
    if offset == None || offset.value > |matching| then None
    else
      var size := BoundedLimit(limit);
      var end := if offset.value + size < |matching| then offset.value + size else |matching|;
      var more := end < |matching|;
      Some(Page(matching[offset.value..end], if more then Some(ActionCursor(c, scope, end)) else None,
                |rows|, |matching|, more))
  }

  /** Every cursor this result set can produce is short enough to be sent back. */
  predicate CursorsFit(c: Codec, scope: string, count: nat) {
    forall n: nat | n <= count :: |ActionCursor(c, scope, n)| <= MAX_CURSOR
  }

  /** Following `next_cursor`, with page sizes that may change on every request, for at most `fuel` pages. */
  function Follow(c: Codec, digest: ScopeKey -> string, fold: string -> string, q: Request, legal: seq<Row>,
      limits: nat -> Limit, k: nat, cursor: Option<string>, fuel: nat): Option<seq<seq<Row>>>
    decreases fuel
  {
    if fuel == 0 then None
    else
      var page := LegalActionPage(c, digest, fold, q, legal, limits(k), cursor, false);
      if page == None then None
      else if page.value.next == None then Some([page.value.rows])
      else
        var rest := Follow(c, digest, fold, q, legal, limits, k + 1, page.value.next, fuel - 1);
        if rest == None then None else Some([page.value.rows] + rest.value)
  }

  function Concat(pages: seq<seq<Row>>): seq<Row> {
    if pages == [] then [] else pages[0] + Concat(pages[1..])
  }

  /** One page from a good cursor: the next rows, a full page unless it is the last, and a cursor to its end. */
  lemma PageAt(c: Codec, digest: ScopeKey -> string, fold: string -> string, q: Request, legal: seq<Row>,
      limit: Limit, cursor: Option<string>)
    requires Faithful(c)
    requires var matching := Filtered(Descriptors(q, legal), q.query, fold);
             var offset := CursorOffset(c, cursor, Scope(q, legal, digest), false);
             CursorsFit(c, Scope(q, legal, digest), |matching|) && offset.Some? && offset.value <= |matching|
    ensures var matching := Filtered(Descriptors(q, legal), q.query, fold);
            var offset := CursorOffset(c, cursor, Scope(q, legal, digest), false).value;
            var page := LegalActionPage(c, digest, fold, q, legal, limit, cursor, false);
            page.Some? &&
            if page.value.next == None then page.value.rows == matching[offset..]
            else
              var end := offset + BoundedLimit(limit);
              end < |matching| && page.value.rows == matching[offset..end] &&
              CursorOffset(c, page.value.next, Scope(q, legal, digest), false) == Some(end)
  {
    hide Filtered, Descriptors, Faithful, CursorOffset, ActionCursor, Scope, BoundedLimit;
    var matching := Filtered(Descriptors(q, legal), q.query, fold);
    var scope := Scope(q, legal, digest);
    var end := CursorOffset(c, cursor, scope, false).value + BoundedLimit(limit);
    if end < |matching| {
      assert |ActionCursor(c, scope, end)| <= MAX_CURSOR;
      CursorRoundTrip(c, scope, end, scope, false);
    }
  }

  predicate FullPages(pages: seq<seq<Row>>, limits: nat -> Limit, k: nat) {
    forall i: nat | i + 1 < |pages| :: |pages[i]| == BoundedLimit(limits(k + i))
  }

  lemma FullPagesStep(first: seq<Row>, rest: seq<seq<Row>>, limits: nat -> Limit, k: nat)
    requires |first| == BoundedLimit(limits(k)) && FullPages(rest, limits, k + 1)
    ensures FullPages([first] + rest, limits, k)
    ensures Concat([first] + rest) == first + Concat(rest)
  {
    var pages := [first] + rest;
    assert pages[1..] == rest;
    forall i: nat | i + 1 < |pages| ensures |pages[i]| == BoundedLimit(limits(k + i)) {
      if i > 0 { assert pages[i] == rest[i - 1] && k + i == k + 1 + (i - 1); }
    }
  }

  lemma {:induction false} FollowFrom(c: Codec, digest: ScopeKey -> string, fold: string -> string, q: Request,
      legal: seq<Row>, limits: nat -> Limit, k: nat, cursor: Option<string>, fuel: nat)
    requires Faithful(c)
    requires var matching := Filtered(Descriptors(q, legal), q.query, fold);
             var offset := CursorOffset(c, cursor, Scope(q, legal, digest), false);
             CursorsFit(c, Scope(q, legal, digest), |matching|) &&
             offset.Some? && offset.value <= |matching| < offset.value + fuel
    ensures var matching := Filtered(Descriptors(q, legal), q.query, fold);
            var pages := Follow(c, digest, fold, q, legal, limits, k, cursor, fuel);
            pages.Some? && FullPages(pages.value, limits, k) &&
            Concat(pages.value) == matching[CursorOffset(c, cursor, Scope(q, legal, digest), false).value..]
    decreases fuel
  {
    hide Filtered, Descriptors, Faithful, LegalActionPage, CursorOffset, CursorsFit, FullPages;
    var matching := Filtered(Descriptors(q, legal), q.query, fold);
    var offset := CursorOffset(c, cursor, Scope(q, legal, digest), false).value;
    PageAt(c, digest, fold, q, legal, limits(k), cursor);
    var page := LegalActionPage(c, digest, fold, q, legal, limits(k), cursor, false).value;
    if page.next == None {
      OnePage(page.rows, limits, k);
    } else {
      FollowFrom(c, digest, fold, q, legal, limits, k + 1, page.next, fuel - 1);
      FullPagesStep(page.rows, Follow(c, digest, fold, q, legal, limits, k + 1, page.next, fuel - 1).value, limits, k);
      var end := offset + BoundedLimit(limits(k));
      assert matching[offset..end] + matching[end..] == matching[offset..];
    }
  }

  lemma OnePage(rows: seq<Row>, limits: nat -> Limit, k: nat)
    ensures Concat([rows]) == rows && FullPages([rows], limits, k)
  {
    assert [rows][1..] == [];
  }

  /**
   * From no cursor, following `next_cursor` ends after at most one page per row (and one for an empty
   * set) and yields every matching row exactly once, in order, whatever limits are asked for.
   */
  lemma PagesYieldEveryRowOnce(c: Codec, digest: ScopeKey -> string, fold: string -> string, q: Request,
      legal: seq<Row>, limits: nat -> Limit)
    requires Faithful(c)
    requires CursorsFit(c, Scope(q, legal, digest), |Filtered(Descriptors(q, legal), q.query, fold)|)
    ensures var matching := Filtered(Descriptors(q, legal), q.query, fold);
            var pages := Follow(c, digest, fold, q, legal, limits, 0, None, |matching| + 1);
            pages.Some? && Concat(pages.value) == matching && FullPages(pages.value, limits, 0)
  {
    FollowFrom(c, digest, fold, q, legal, limits, 0, None, |Filtered(Descriptors(q, legal), q.query, fold)| + 1);
  }

  /** A cursor of one state, player, query and action list opens no page of another. */
  lemma StaleCursorIsRefused(c: Codec, digest: ScopeKey -> string, fold: string -> string,
      made: Request, madeLegal: seq<Row>, offset: nat, q: Request, legal: seq<Row>, limit: Limit, allowLegacy: bool)
    requires Faithful(c) && |ActionCursor(c, Scope(made, madeLegal, digest), offset)| <= MAX_CURSOR
    requires KeyOf(made, madeLegal) != KeyOf(q, legal)
    requires digest(KeyOf(made, madeLegal)) == digest(KeyOf(q, legal)) ==> KeyOf(made, madeLegal) == KeyOf(q, legal)
    ensures LegalActionPage(c, digest, fold, q, legal, limit,
                            Some(ActionCursor(c, Scope(made, madeLegal, digest), offset)), allowLegacy) == None
  {
    CursorRoundTrip(c, Scope(made, madeLegal, digest), offset, Scope(q, legal, digest), allowLegacy);
  }
}
