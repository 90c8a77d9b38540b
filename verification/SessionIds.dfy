/** The "Session-Id" header: how the agent lists its sessions (key-agent/src/session.cpp:8-36) and how the KMS module
    reads a session id out of a response header (npm/kms/src/intf.cpp:28-39, 270-275, 310, 327-339). */
module SessionIds {
  import opened Strings

  /** One visited entry of the session table. */
  datatype Entry = Entry(name: string, id: string)

  predicate Plain(s: string) {
    Free(s, ',') && Free(s, ':')
  }

  predicate PlainEntry(e: Entry) {
    Plain(e.name) && Plain(e.id)
  }

  function Printed(e: Entry): (s: string) {
    e.name + ":" + e.id
  }

  function PrintedAll(entries: seq<Entry>): (parts: seq<string>) {
    seq(|entries|, i requires 0 <= i < |entries| => Printed(entries[i]))
  }

  function Listing(entries: seq<Entry>): (s: string) {
    Join(",", PrintedAll(entries))
  }

  lemma {:induction false} JoinSnoc(glue: string, parts: seq<string>, last: string)
    requires |parts| >= 1
    ensures Join(glue, parts + [last]) == Join(glue, parts) + glue + last
  {
    if |parts| == 1 {
      assert (parts + [last])[1..] == [last];
    } else {
      JoinSnoc(glue, parts[1..], last);
      assert (parts + [last])[1..] == parts[1..] + [last];
    }
  }

  lemma {:induction false} ListingNotEmpty(entries: seq<Entry>)
    requires entries != []
    ensures Listing(entries) != ""
  {
    var parts := PrintedAll(entries);
    assert |parts[0]| >= 1;
    assert |Join(",", parts)| >= |parts[0]|;
  }

  /** `__keyagent_session_get_ids`: the visitor appends a comma only when something was printed before.
      `order` is the table in the order in which it happens to be visited. */
  method GetIds(order: seq<Entry>) returns (ids: Option<string>)
    ensures ids == if order == [] then None else Some(Listing(order))
  {
    var text := "";
    for i := 0 to |order|
      invariant text == Listing(order[..i])
    {
      if i > 0 {
        ListingNotEmpty(order[..i]);
        JoinSnoc(",", PrintedAll(order[..i]), Printed(order[i]));
      }
      assert PrintedAll(order[..i + 1]) == PrintedAll(order[..i]) + [Printed(order[i])];
      if |text| != 0 {
        text := text + ",";
      }
      text := text + order[i].name;
      text := text + ":";
      text := text + order[i].id;
    }
    assert order[..|order|] == order;
    if order != [] {
      ListingNotEmpty(order);
    }
    if |text| == 0 {
      return None;
    }
    return Some(text);
  }

  /** What a reader of the list does: split at ',' and each piece at ':'. None marks a piece that is no name:id pair. */
  function ReadPair(piece: string): (e: Option<Entry>) {
    var fields := Split(piece, ':');
    if |fields| == 2 then Some(Entry(fields[0], fields[1])) else None
  }

  function ReadListing(list: string): (es: seq<Option<Entry>>) {
    var pieces := Split(list, ',');
    seq(|pieces|, i requires 0 <= i < |pieces| => ReadPair(pieces[i]))
  }

  lemma PairRoundTrip(e: Entry)
    requires PlainEntry(e)
    ensures Pieces(Printed(e), ':') == [e.name, e.id]
    ensures ReadPair(Printed(e)) == Some(e)
    ensures Free(Printed(e), ',')
  {
    PiecesOfCons(e.name, e.id, ':');
    PiecesOfFree(e.id, ':');
  }

  /** In whatever order the table is visited, reading the printed list gives back exactly one pair per entry. */
  lemma ListingRoundTrip(order: seq<Entry>)
    requires forall i :: 0 <= i < |order| ==> PlainEntry(order[i])
    ensures |ReadListing(Listing(order))| == |order|
    ensures forall i :: 0 <= i < |order| ==> ReadListing(Listing(order))[i] == Some(order[i])
  {
    if order != [] {
      var parts := PrintedAll(order);
      forall i | 0 <= i < |order|
        ensures Free(parts[i], ',') && ReadPair(parts[i]) == Some(order[i])
      {
        PairRoundTrip(order[i]);
      }
      SplitOfJoin(parts, ',');
      ListingNotEmpty(order);
    }
  }

  // ----- The KMS module's side -----

  /** The blanks of `g_ascii_isspace`; the vertical tab is not one of them. */
  predicate IsSpace(c: char) {
    c == ' ' || c == '\t' || c == '\n' || c == '\r' || c == '\U{0C}'
  }

  function Chug(s: string): (t: string) {
    if s != "" && IsSpace(s[0]) then Chug(s[1..]) else s
  }

  function Chomp(s: string): (t: string) {
    if s != "" && IsSpace(s[|s| - 1]) then Chomp(s[..|s| - 1]) else s
  }

  /** `g_strstrip` */
  function Strip(s: string): (t: string) {
    Chomp(Chug(s))
  }

  predicate NoBlankEnds(s: string) {
    s != "" ==> !IsSpace(s[0]) && !IsSpace(s[|s| - 1])
  }

  predicate Blank(s: string) {
    forall i :: 0 <= i < |s| ==> IsSpace(s[i])
  }

  lemma {:induction false} ChompTail(s: string, tail: string)
    requires Blank(tail)
    ensures Chomp(s + tail) == Chomp(s)
  {
    if tail == "" {
      assert s + tail == s;
    } else {
      ChompTail(s, tail[..|tail| - 1]);
      assert (s + tail)[..|s + tail| - 1] == s + tail[..|tail| - 1];
    }
  }

  lemma {:induction false} ChompShrinks(s: string)
    ensures Chomp(s) <= s
    ensures Chomp(s) != "" ==> !IsSpace(Chomp(s)[|Chomp(s)| - 1])
    ensures s != "" && !IsSpace(s[0]) ==> Chomp(s) != ""
  {
    if s != "" && IsSpace(s[|s| - 1]) {
      ChompShrinks(s[..|s| - 1]);
    }
  }

  lemma {:induction false} ChugShrinks(s: string)
    ensures |Chug(s)| <= |s|
    ensures Chug(s) != "" ==> !IsSpace(Chug(s)[0])
    ensures |Chug(s)| == |s| ==> Chug(s) == s
  {
    if s != "" && IsSpace(s[0]) {
      ChugShrinks(s[1..]);
    }
  }

  /** Stripping leaves a string alone exactly when it has no blank at either end; what it yields has none. */
  lemma StripFixed(s: string)
    ensures Strip(s) == s <==> NoBlankEnds(s)
    ensures NoBlankEnds(Strip(s))
  {
    ChugShrinks(s);
    ChompShrinks(Chug(s));
    if Strip(s) == s {
      assert |Chug(s)| == |s|;
    }
  }

  /** The characters of `g_ascii_isspace` by number: tab, line feed, form feed, carriage return, blank. */
  lemma SpacesAre(c: char)
    ensures IsSpace(c) <==> c as int in {9, 10, 12, 13, 32}
  {
  }

  lemma BlankPieces(a: string, b: string)
    requires Blank(a) && Blank(b)
    ensures Blank(a + b)
  {
  }

  lemma OneBlank(c: char)
    requires IsSpace(c)
    ensures Blank([c])
  {
  }

  lemma {:induction false} ChugIsEnd(s: string) returns (front: string)
    ensures Blank(front) && s == front + Chug(s)
  {
    if s != "" && IsSpace(s[0]) {
      hide Blank;
      var rest := ChugIsEnd(s[1..]);
      OneBlank(s[0]);
      BlankPieces([s[0]], rest);
      front := [s[0]] + rest;
      assert s == [s[0]] + s[1..];
    } else {
      front := "";
    }
  }

  lemma {:induction false} ChompIsStart(s: string) returns (tail: string)
    ensures Blank(tail) && s == Chomp(s) + tail
  {
    if s != "" && IsSpace(s[|s| - 1]) {
      hide Blank;
      var rest := ChompIsStart(s[..|s| - 1]);
      OneBlank(s[|s| - 1]);
      BlankPieces(rest, [s[|s| - 1]]);
      tail := rest + [s[|s| - 1]];
      assert s == s[..|s| - 1] + [s[|s| - 1]];
    } else {
      tail := "";
    }
  }

  /** Stripping takes blanks off both ends and nothing else. */
  lemma StripIsMiddle(s: string) returns (front: string, tail: string)
    ensures Blank(front) && Blank(tail) && s == front + Strip(s) + tail
  {
    front := ChugIsEnd(s);
    tail := ChompIsStart(Chug(s));
  }

  predicate IsSessionHeader(header: string) {
    "Session-Id:" <= header || "session-id:" <= header
  }

  /** The tokens of the last matching header; None while none matched. */
  function TokensOf(headers: seq<string>): (tokens: Option<seq<string>>) {
    if headers == [] then None
    else if IsSessionHeader(headers[|headers| - 1]) then Some(Split(headers[|headers| - 1], ':'))
    else TokensOf(headers[..|headers| - 1])
  }

  lemma PrefixIs(s: string, p: string)
    ensures p <= s <==> |s| >= |p| && s[..|p|] == p
  {
  }

  /** The two spellings that are recognised. */
  lemma HeaderSpelling(header: string)
    ensures IsSessionHeader(header) <==> |header| >= 11 && header[..11] in ["Session-Id:", "session-id:"]
  {
    PrefixIs(header, "Session-Id:");
    PrefixIs(header, "session-id:");
  }

  /** Of several session headers the last one counts, whatever comes before and after it. */
  lemma {:induction false} LastHeaderWins(before: seq<string>, header: string, after: seq<string>)
    requires forall i :: 0 <= i < |after| ==> !IsSessionHeader(after[i])
    ensures IsSessionHeader(header) ==> TokensOf(before + [header] + after) == Some(Split(header, ':'))
    ensures TokensOf(after) == None
    decreases |after|
  {
    hide IsSessionHeader;
    if after == [] {
      assert before + [header] + after == before + [header];
      assert (before + [header])[|before|] == header;
    } else {
      var rest := after[..|after| - 1];
      LastHeaderWins(before, header, rest);
      var all := before + [header] + after;
      assert all[|all| - 1] == after[|after| - 1];
      assert all[..|all| - 1] == before + [header] + rest;
    }
  }

  /** `g_ptr_array_foreach(res_headers, get_session_id_from_header, ...)`: a later match overwrites an earlier one. */
  method FindTokens(headers: seq<string>) returns (tokens: Option<seq<string>>)
    ensures tokens == TokensOf(headers)
  {
    tokens := None;
    for i := 0 to |headers|
      invariant tokens == TokensOf(headers[..i])
    {
      assert headers[..i + 1][..i] == headers[..i];
      if IsSessionHeader(headers[i]) {
        tokens := Some(Split(headers[i], ':'));
      }
    }
    assert headers[..|headers|] == headers;
  }

  datatype HeaderId = NoHeader | NoId | Id(id: string)

  /** The session id the KMS module takes from the response headers: the third token, stripped. */
  function IdOf(tokens: Option<seq<string>>): (h: HeaderId) {
    if tokens.None? then NoHeader
    else if |tokens.value| <= 2 then NoId
    else Id(Strip(tokens.value[2]))
  }

  function HeaderLine(list: string, lineEnd: string): (header: string) {
    "Session-Id: " + list + lineEnd
  }

  lemma HeaderTokens(list: string, lineEnd: string)
    ensures TokensOf([HeaderLine(list, lineEnd)]) == Some(["Session-Id"] + Pieces(" " + list + lineEnd, ':'))
  {
    var header := HeaderLine(list, lineEnd);
    assert "Session-Id:" <= header;
    PiecesOfCons("Session-Id", " " + list + lineEnd, ':');
    assert header == "Session-Id" + ":" + (" " + list + lineEnd);
  }

  /** For a table with one session, the header built from the list parses back to the stripped id of that session,
      with or without a line end; that is the id itself exactly when it has no blank at either end. */
  lemma OneSessionHeader(e: Entry, lineEnd: string)
    requires PlainEntry(e) && Blank(lineEnd)
    ensures IdOf(TokensOf([HeaderLine(Listing([e]), lineEnd)])) == Id(Strip(e.id))
    ensures IdOf(TokensOf([HeaderLine(Listing([e]), lineEnd)])) == Id(e.id) <==> NoBlankEnds(e.id)
  {
    assert PrintedAll([e]) == [Printed(e)];
    HeaderTokens(Listing([e]), lineEnd);
    assert Free(lineEnd, ':');
    PiecesOfCons(" " + e.name, e.id + lineEnd, ':');
    assert " " + Listing([e]) + lineEnd == (" " + e.name) + ":" + (e.id + lineEnd);
    PiecesOfFree(e.id + lineEnd, ':');
    StripTail(e.id, lineEnd);
    StripFixed(e.id);
  }

  lemma {:induction false} StripTail(s: string, tail: string)
    requires Blank(tail)
    ensures Strip(s + tail) == Strip(s)
  {
    if s == "" {
      assert s + tail == tail;
      BlankStripsToNothing(tail);
    } else if IsSpace(s[0]) {
      StripTail(s[1..], tail);
      assert (s + tail)[1..] == s[1..] + tail;
    } else {
      ChompTail(s, tail);
    }
  }

  lemma {:induction false} BlankStripsToNothing(s: string)
    requires Blank(s)
    ensures Chug(s) == ""
  {
    if s != "" {
      BlankStripsToNothing(s[1..]);
    }
  }

  /** With two or more sessions the same parse does not yield a session id: the token runs into the next entry. */
  lemma ManySessionHeader(order: seq<Entry>, lineEnd: string, id: string)
    requires |order| >= 2 && forall i :: 0 <= i < |order| ==> PlainEntry(order[i])
    requires Plain(id)
    ensures IdOf(TokensOf([HeaderLine(Listing(order), lineEnd)])) != Id(id)
  {
    var parts := PrintedAll(order);
    HeaderTokens(Listing(order), lineEnd);
    var rest := PrintedAll(order)[1..];
    assert rest[0] == order[1].name + ":" + order[1].id;
    var after := Join(",", rest);
    var tail := after[|order[1].name| + 1..] + lineEnd;
    assert after[..|order[1].name| + 1] == order[1].name + ":";
    assert after + lineEnd == order[1].name + ":" + tail;
    var third := order[0].id + "," + order[1].name;
    assert " " + Listing(order) + lineEnd == (" " + order[0].name) + ":" + (third + ":" + tail);
    PiecesOfCons(" " + order[0].name, third + ":" + tail, ':');
    PiecesOfCons(third, tail, ':');
    StripKeeps(third, |order[0].id|);
    assert third[|order[0].id|] == ',';
  }

  /** Stripping keeps every character that is no blank. */
  lemma {:induction false} StripKeeps(s: string, at: nat)
    requires at < |s| && !IsSpace(s[at])
    ensures s[at] in Strip(s)
  {
    if IsSpace(s[0]) {
      StripKeeps(s[1..], at - 1);
    } else {
      ChompKeeps(s, at);
    }
  }

  lemma {:induction false} ChompKeeps(s: string, at: nat)
    requires at < |s| && !IsSpace(s[at])
    ensures s[at] in Chomp(s)
  {
    if IsSpace(s[|s| - 1]) {
      ChompKeeps(s[..|s| - 1], at);
    }
  }
}
