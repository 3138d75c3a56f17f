/** Which cursors are taken and what a page holds, written out on the texts and rows. */
module PageLaws {
  import opened Options
  import opened Json
  import opened Base64
  import opened Pages
  import M = Match
  import L = LogicalIds

  // ----- cursors -----

  /** The cursor of this payload: prefix, payload and keyed hash, and a payload that binds scope and offset. */
  predicate Carries(c: Codec, text: string, payload: string, scope: string, n: nat) {
    && text == "ep2." + payload + "." + c.mac(payload)
    && '.' !in payload && '.' !in c.mac(payload)
    && |c.mac(payload)| == 64 && (forall i | 0 <= i < 64 :: c.mac(payload)[i] as int <= 127)
    && Decode(payload).Some?
    && c.read(Decode(payload).value) == Fields(JInt(2), JStr(scope), JInt(n))
  }

  function Joined(parts: seq<string>): string {
    if parts == [] then "" else if |parts| == 1 then parts[0] else parts[0] + "." + Joined(parts[1..])
  }

  lemma {:induction false} SplitJoins(s: string)
    ensures Joined(Split(s)) == s && Split(s) != []
    ensures forall i | 0 <= i < |Split(s)| :: '.' !in Split(s)[i]
    decreases |s|
  {
    var k := FirstDot(s);
    if k < |s| {
      SplitJoins(s[k + 1..]);
      var rest := Split(s[k + 1..]);
      assert Split(s)[1..] == rest;
      assert s == s[..k] + "." + s[k + 1..];
    } else {
      assert s[..k] == s;
    }
  }

  lemma JoinedThree(parts: seq<string>)
    requires |parts| == 3
    ensures Joined(parts) == parts[0] + "." + parts[1] + "." + parts[2]
  {
    assert Joined(parts[1..]) == parts[1] + "." + Joined(parts[1..][1..]);
    assert parts[1..][1..] == [parts[2]];
  }

  lemma NoDotIsNoSeparator(s: string)
    ensures NoSeparator(s) <==> '.' !in s
  {
  }

  /** A cursor yields an offset exactly when it is a signed one of this scope and no longer than 1024. */
  lemma CursorTakenExactlyWhenSigned(c: Codec, text: string, scope: string, n: nat)
    requires text != ""
    ensures CursorOffset(c, Some(text), scope, false) == Some(n)
            <==> |text| <= 1024 && exists payload :: Carries(c, text, payload, scope, n)
  {
    hide Split, NoSeparator, Decode;
    if CursorOffset(c, Some(text), scope, false) == Some(n) {
      var parts := Split(text);
      SplitJoins(text);
      JoinedThree(parts);
      assert "ep2" + "." + parts[1] + "." + parts[2] == "ep2." + parts[1] + "." + parts[2];
      assert Carries(c, text, parts[1], scope, n);
    }
    if |text| <= 1024 && exists payload :: Carries(c, text, payload, scope, n) {
      var payload :| Carries(c, text, payload, scope, n);
      NoDotIsNoSeparator(payload);
      NoDotIsNoSeparator(c.mac(payload));
      NoDotIsNoSeparator("ep2");
      SplitsInThree("ep2", payload, c.mac(payload));
      assert text == "ep2" + "." + payload + "." + c.mac(payload);
    }
  }

  lemma {:induction false} DecimalDenotes(s: string)
    requires L.AllDigits(s)
    ensures IsDecimal(s) <==> s != ""
    ensures DecimalValue(s) == L.Value(s)
  {
    if s != "" {
      DecimalDenotes(s[..|s| - 1]);
    }
  }

  /** Where legacy cursors are allowed a decimal number is its own offset; no cursor is the start. */
  lemma NumberIsALegacyCursor(c: Codec, n: nat, scope: string)
    requires |M.Digits(n)| <= 1024
    ensures CursorOffset(c, Some(M.Digits(n)), scope, true) == Some(n)
    ensures forall legacy :: CursorOffset(c, None, scope, legacy) == Some(0)
                             && CursorOffset(c, Some(""), scope, legacy) == Some(0)
  {
    L.DigitsDenote(n);
    DecimalDenotes(M.Digits(n));
  }

  // ----- pages -----

  ghost predicate Mentions(text: string, needle: string) {
    exists before, after :: text == before + needle + after
  }

  lemma ContainsMentions(text: string, needle: string)
    ensures Contains(text, needle) <==> Mentions(text, needle)
  {
    if Contains(text, needle) {
      var k: nat :| k <= |text| && OccursAt(text, needle, k);
      assert text == text[..k] + needle + text[k + |needle|..];
    }
    if Mentions(text, needle) {
      var before, after :| text == before + needle + after;
      assert OccursAt(text, needle, |before|);
    }
  }

  /** One of the six fields mentions the query once both are folded. */
  ghost predicate Answers(r: Row, query: string, fold: string -> string) {
    exists field | field in {r.token, r.title, r.shortLabel, r.promptLabel, r.group, r.category} ::
      Mentions(fold(field), fold(query))
  }

  ghost function Found(rows: seq<Row>, query: Option<string>, fold: string -> string): seq<Row> {
    if rows == [] then []
    else
      var last := |rows| - 1;
      Found(rows[..last], query, fold)
      + if query == None || query == Some("") || Answers(rows[last], query.value, fold) then [rows[last]] else []
  }

  lemma MatchesAnswers(r: Row, query: string, fold: string -> string)
    ensures Matches(r, query, fold) <==> Answers(r, query, fold)
  {
    hide Contains, Mentions;
    var needle := fold(query);
    ContainsMentions(fold(r.token), needle);
    ContainsMentions(fold(r.title), needle);
    ContainsMentions(fold(r.shortLabel), needle);
    ContainsMentions(fold(r.promptLabel), needle);
    ContainsMentions(fold(r.group), needle);
    ContainsMentions(fold(r.category), needle);
  }

  lemma {:induction false} FilteredAreFound(rows: seq<Row>, query: Option<string>, fold: string -> string)
    ensures Filtered(rows, query, fold) == Found(rows, query, fold)
  {
    hide Matches, Answers;
    if rows != [] {
      var last := |rows| - 1;
      FilteredAreFound(rows[..last], query, fold);
      assert rows == rows[..last] + [rows[last]];
      if query.Some? && query.value != "" {
        MatchesAnswers(rows[last], query.value, fold);
        KeepConcat(rows[..last], [rows[last]], query.value, fold);
        assert Keep([rows[last]], query.value, fold)
               == if Matches(rows[last], query.value, fold) then [rows[last]] else [];
      }
    }
  }

  /** The rows a request may see: all legal ones for the active human, none for anyone else. */
  function Seen(q: Request, legal: seq<Row>): seq<Row> {
    if q.isActiveHuman then legal else []
  }

  /** A page is there exactly for an offset inside the result; it holds the next rows and says what is left. */
  lemma PageHolds(c: Codec, digest: ScopeKey -> string, fold: string -> string, q: Request, legal: seq<Row>,
                  limit: Limit, cursor: Option<string>, legacy: bool)
    ensures
      var found := Found(Seen(q, legal), q.query, fold);
      var scope := digest(ScopeKey(q.stateHash, q.player, q.query, Seen(q, legal)));
      var at := CursorOffset(c, cursor, scope, legacy);
      var page := LegalActionPage(c, digest, fold, q, legal, limit, cursor, legacy);
      && (page.Some? <==> at.Some? && at.value <= |found|)
      && (page.Some? ==>
            var end := at.value + BoundedLimit(limit);
            && page.value.total == |Seen(q, legal)| && page.value.matching == |found|
            && (if end < |found| then
                  && page.value.rows == found[at.value..end] && page.value.hasMore
                  && page.value.next == Some(ActionCursor(c, scope, end))
                else page.value.rows == found[at.value..] && !page.value.hasMore && page.value.next == None))
  {
    hide Filtered, Found, CursorOffset, ActionCursor, BoundedLimit;
    FilteredAreFound(Seen(q, legal), q.query, fold);
  }
}
