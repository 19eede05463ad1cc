/** Every Redis key the service writes, and a parser that undoes the printing. */
module RedisKeys {
  import opened Wrappers
  import opened Uuids

  datatype Key =
    | MatchState(matchId: Uuid)
    | Reconnect(matchId: Uuid, userId: Uuid)
    | UserConnection(userId: Uuid)
    | RateMove(userId: Uuid)
    | Refresh(userId: Uuid)
    | Queue(region: string, difficulty: string, stake: string)

  function MatchStateKey(matchId: Uuid): string {
    "match:" + Text(matchId) + ":state"
  }

  function UserConnectionKey(userId: Uuid): string {
    "user:" + Text(userId) + ":connection"
  }

  function RateMoveKey(userId: Uuid): string {
    "rate:user:" + Text(userId) + ":move"
  }

  function ReconnectKey(matchId: Uuid, userId: Uuid): string {
    "match:" + Text(matchId) + ":reconnect:" + Text(userId)
  }

  function RefreshKey(userId: Uuid): string {
    "refresh:" + Text(userId)
  }

  // A segment may be empty; it may not hold a separator or a glob character.
  predicate ValidSegment(s: string) {
    forall i :: 0 <= i < |s| ==> s[i] != ':' && s[i] != '*' && s[i] != '?'
  }

  // None is the error return.
  function QueueKey(region: string, difficulty: string, stake: string): (r: Option<string>) {
    if ValidSegment(region) && ValidSegment(difficulty) && ValidSegment(stake)
    then Some("queue:" + region + ":" + difficulty + ":" + stake)
    else None
  }

  function Print(k: Key): Option<string> {
    match k
    case MatchState(m) => Some(MatchStateKey(m))
    case Reconnect(m, u) => Some(ReconnectKey(m, u))
    case UserConnection(u) => Some(UserConnectionKey(u))
    case RateMove(u) => Some(RateMoveKey(u))
    case Refresh(u) => Some(RefreshKey(u))
    case Queue(r, d, s) => QueueKey(r, d, s)
  }

  // Index of the first ':' in s, or |s|.
  function ColonAt(s: string): (n: nat)
    ensures n <= |s|
    ensures n < |s| ==> s[n] == ':'
    ensures forall i :: 0 <= i < n ==> s[i] != ':'
  {
    if s == "" || s[0] == ':' then 0 else 1 + ColonAt(s[1..])
  }

  function Strip(s: string, prefix: string): Option<string> {
    if prefix <= s then Some(s[|prefix|..]) else None
  }

  // Reads the leading 36 characters of s as a lower-case UUID and returns it with the rest.
  function TakeUuid(s: string): Option<(Uuid, string)> {
    if |s| < TEXT_LENGTH then None
    else
      var u := Parse(s[..TEXT_LENGTH]);
      if u.Some? && Text(u.value) == s[..TEXT_LENGTH] then Some((u.value, s[TEXT_LENGTH..])) else None
  }

  function ParseUuidThen(s: string, suffix: string): Option<Uuid> {
    var t := TakeUuid(s);
    if t.Some? && t.value.1 == suffix then Some(t.value.0) else None
  }

  function ParseMatch(s: string): Option<Key> {
    var t := TakeUuid(s);
    if t.None? then None
    else if t.value.1 == ":state" then Some(MatchState(t.value.0))
    else
      var tail := Strip(t.value.1, ":reconnect:");
      if tail.None? then None
      else
        var u := ParseUuidThen(tail.value, "");
        if u.None? then None else Some(Reconnect(t.value.0, u.value))
  }

  function ParseQueue(s: string): Option<Key> {
    var i := ColonAt(s);
    if i == |s| then None
    else
      var rest := s[i + 1..];
      var j := ColonAt(rest);
      if j == |rest| || !ValidSegment(s[..i]) || !ValidSegment(rest[..j]) || !ValidSegment(rest[j + 1..]) then None
      else Some(Queue(s[..i], rest[..j], rest[j + 1..]))
  }

  function ParseKey(s: string): Option<Key> {
    if s == "" then None
    else if s[0] == 'm' then
      var body := Strip(s, "match:");
      if body.None? then None else ParseMatch(body.value)
    else if s[0] == 'q' then
      var body := Strip(s, "queue:");
      if body.None? then None else ParseQueue(body.value)
    else if s[0] == 'u' then
      var body := Strip(s, "user:");
      if body.None? then None
      else var u := ParseUuidThen(body.value, ":connection"); if u.None? then None else Some(UserConnection(u.value))
    else if "rate:user:" <= s then
      var u := ParseUuidThen(s[10..], ":move");
      if u.None? then None else Some(RateMove(u.value))
    else
      var body := Strip(s, "refresh:");
      if body.None? then None
      else var u := ParseUuidThen(body.value, ""); if u.None? then None else Some(Refresh(u.value))
  }

  lemma StripOfPrefix(prefix: string, s: string)
    ensures Strip(prefix + s, prefix) == Some(s)
  {
    assert (prefix + s)[|prefix|..] == s;
  }

  lemma TakeUuidOfText(u: Uuid, suffix: string)
    ensures TakeUuid(Text(u) + suffix) == Some((u, suffix))
  {
    var s := Text(u) + suffix;
    assert s[..TEXT_LENGTH] == Text(u) && s[TEXT_LENGTH..] == suffix;
    ParseOfText(u);
  }

  lemma {:induction false} ColonAtSegment(a: string, rest: string)
    requires forall i :: 0 <= i < |a| ==> a[i] != ':'
    ensures ColonAt(a + ":" + rest) == |a|
  {
    var s := a + ":" + rest;
    var n := ColonAt(s);
    assert s[|a|] == ':';
    assert forall i :: 0 <= i < |a| ==> s[i] == a[i];
  }

  // ---- The texts, field by field ----

  // The fields of a text between its separators.
  function Split(s: string): (fields: seq<string>)
    ensures fields != []
  {
    var n := ColonAt(s);
    if n == |s| then [s] else [s[..n]] + Split(s[n + 1..])
  }

  predicate NoColon(s: string) {
    forall i :: 0 <= i < |s| ==> s[i] != ':'
  }

  lemma SplitOne(a: string)
    requires NoColon(a)
    ensures Split(a) == [a]
  {
  }

  lemma SplitMore(a: string, rest: string)
    requires NoColon(a)
    ensures Split(a + ":" + rest) == [a] + Split(rest)
  {
    var s := a + ":" + rest;
    ColonAtSegment(a, rest);
    assert s[..|a|] == a && s[|a| + 1..] == rest;
  }

  lemma SplitTwo(s: string, a: string, b: string)
    requires NoColon(a) && NoColon(b) && s == a + ":" + b
    ensures Split(s) == [a, b]
  {
    SplitMore(a, b);
    SplitOne(b);
  }

  lemma SplitThree(s: string, a: string, b: string, c: string)
    requires NoColon(a) && NoColon(b) && NoColon(c) && s == a + ":" + (b + ":" + c)
    ensures Split(s) == [a, b, c]
  {
    SplitMore(a, b + ":" + c);
    SplitTwo(b + ":" + c, b, c);
  }

  lemma SplitFour(s: string, rest: string, a: string, b: string, c: string, d: string)
    requires NoColon(a) && s == a + ":" + rest && Split(rest) == [b, c, d]
    ensures Split(s) == [a, b, c, d]
  {
    SplitMore(a, rest);
  }

  lemma MatchStateFields(m: Uuid)
    ensures Split(MatchStateKey(m)) == ["match", Text(m), "state"]
  {
    var s := MatchStateKey(m);
    assert s == "match" + ":" + (Text(m) + ":" + "state");
    SplitThree(s, "match", Text(m), "state");
  }

  lemma ReconnectFields(m: Uuid, u: Uuid)
    ensures Split(ReconnectKey(m, u)) == ["match", Text(m), "reconnect", Text(u)]
  {
    var s := ReconnectKey(m, u);
    var rest := Text(m) + ":" + ("reconnect" + ":" + Text(u));
    assert s == "match" + ":" + rest;
    SplitThree(rest, Text(m), "reconnect", Text(u));
    SplitFour(s, rest, "match", Text(m), "reconnect", Text(u));
  }

  lemma UserConnectionFields(u: Uuid)
    ensures Split(UserConnectionKey(u)) == ["user", Text(u), "connection"]
  {
    var s := UserConnectionKey(u);
    assert s == "user" + ":" + (Text(u) + ":" + "connection");
    SplitThree(s, "user", Text(u), "connection");
  }

  lemma RateMoveFields(u: Uuid)
    ensures Split(RateMoveKey(u)) == ["rate", "user", Text(u), "move"]
  {
    var s := RateMoveKey(u);
    var rest := "user" + ":" + (Text(u) + ":" + "move");
    assert s == "rate" + ":" + rest;
    SplitThree(rest, "user", Text(u), "move");
    SplitFour(s, rest, "rate", "user", Text(u), "move");
  }

  lemma RefreshFields(u: Uuid)
    ensures Split(RefreshKey(u)) == ["refresh", Text(u)]
  {
    var s := RefreshKey(u);
    assert s == "refresh" + ":" + Text(u);
    SplitTwo(s, "refresh", Text(u));
  }

  /** Every key, field by field. */
  lemma KeyFields(m: Uuid, u: Uuid)
    ensures Split(MatchStateKey(m)) == ["match", Text(m), "state"]
    ensures Split(ReconnectKey(m, u)) == ["match", Text(m), "reconnect", Text(u)]
    ensures Split(UserConnectionKey(u)) == ["user", Text(u), "connection"]
    ensures Split(RateMoveKey(u)) == ["rate", "user", Text(u), "move"]
    ensures Split(RefreshKey(u)) == ["refresh", Text(u)]
  {
    MatchStateFields(m);
    ReconnectFields(m, u);
    UserConnectionFields(u);
    RateMoveFields(u);
    RefreshFields(u);
  }

  /** A queue key is printed if and only if no segment holds ':', '*' or '?'; its fields are "queue" and the
      segments, in order. */
  lemma QueueKeyFields(region: string, difficulty: string, stake: string)
    ensures QueueKey(region, difficulty, stake).Some? <==>
            forall c :: c in region + difficulty + stake ==> c != ':' && c != '*' && c != '?'
    ensures var k := QueueKey(region, difficulty, stake);
            k.Some? ==> Split(k.value) == ["queue", region, difficulty, stake]
  {
    var k := QueueKey(region, difficulty, stake);
    if k.Some? {
      var rest := region + ":" + (difficulty + ":" + stake);
      assert k.value == "queue" + ":" + rest;
      SplitThree(rest, region, difficulty, stake);
      SplitFour(k.value, rest, "queue", region, difficulty, stake);
    }
    Refused(region, difficulty, stake);
  }

  lemma Refused(region: string, difficulty: string, stake: string)
    ensures QueueKey(region, difficulty, stake).Some? <==>
            forall c :: c in region + difficulty + stake ==> c != ':' && c != '*' && c != '?'
  {
    SegmentIff(region + difficulty + stake);
    ValidConcat(region + difficulty, stake);
    ValidConcat(region, difficulty);
  }

  lemma ValidConcat(a: string, b: string)
    ensures ValidSegment(a + b) <==> ValidSegment(a) && ValidSegment(b)
  {
    assert forall i :: 0 <= i < |a| ==> a[i] == (a + b)[i];
    assert forall i :: 0 <= i < |b| ==> b[i] == (a + b)[|a| + i];
  }

  lemma SegmentIff(s: string)
    ensures ValidSegment(s) <==> forall c :: c in s ==> c != ':' && c != '*' && c != '?'
  {
    assert forall i :: 0 <= i < |s| ==> s[i] in s;
  }

  lemma ParseMatchState(m: Uuid)
    ensures ParseKey(MatchStateKey(m)) == Some(MatchState(m))
  {
    assert MatchStateKey(m) == "match:" + (Text(m) + ":state");
    StripOfPrefix("match:", Text(m) + ":state");
    TakeUuidOfText(m, ":state");
  }

  lemma ParseReconnect(m: Uuid, u: Uuid)
    ensures ParseKey(ReconnectKey(m, u)) == Some(Reconnect(m, u))
  {
    var tail := ":reconnect:" + Text(u);
    assert ReconnectKey(m, u) == "match:" + (Text(m) + tail);
    StripOfPrefix("match:", Text(m) + tail);
    TakeUuidOfText(m, tail);
    assert tail[1] == 'r';
    StripOfPrefix(":reconnect:", Text(u));
    assert Text(u) == Text(u) + "";
    TakeUuidOfText(u, "");
  }

  lemma ParseUserConnection(u: Uuid)
    ensures ParseKey(UserConnectionKey(u)) == Some(UserConnection(u))
  {
    assert UserConnectionKey(u) == "user:" + (Text(u) + ":connection");
    StripOfPrefix("user:", Text(u) + ":connection");
    TakeUuidOfText(u, ":connection");
  }

  lemma ParseRateMove(u: Uuid)
    ensures ParseKey(RateMoveKey(u)) == Some(RateMove(u))
  {
    assert RateMoveKey(u) == "rate:user:" + (Text(u) + ":move");
    assert RateMoveKey(u)[10..] == Text(u) + ":move";
    TakeUuidOfText(u, ":move");
  }

  lemma ParseRefresh(u: Uuid)
    ensures ParseKey(RefreshKey(u)) == Some(Refresh(u))
  {
    StripOfPrefix("refresh:", Text(u));
    assert RefreshKey(u)[1] == 'e' && "rate:user:"[1] == 'a';
    assert Text(u) == Text(u) + "";
    TakeUuidOfText(u, "");
  }

  lemma ParseQueueKey(r: string, d: string, s: string)
    requires ValidSegment(r) && ValidSegment(d) && ValidSegment(s)
    ensures ParseKey(QueueKey(r, d, s).value) == Some(Queue(r, d, s))
  {
    var rest := d + ":" + s;
    var body := r + ":" + rest;
    assert QueueKey(r, d, s).value == "queue:" + body;
    StripOfPrefix("queue:", body);
    ColonAtSegment(r, rest);
    ColonAtSegment(d, s);
    assert body[..|r|] == r && body[|r| + 1..] == rest;
    assert rest[..|d|] == d && rest[|d| + 1..] == s;
  }

  /** Whatever key is printed, the parser gives back the family and every segment. */
  lemma ParseOfPrint(k: Key)
    requires Print(k).Some?
    ensures ParseKey(Print(k).value) == Some(k)
  {
    match k
    case MatchState(m) => ParseMatchState(m);
    case Reconnect(m, u) => ParseReconnect(m, u);
    case UserConnection(u) => ParseUserConnection(u);
    case RateMove(u) => ParseRateMove(u);
    case Refresh(u) => ParseRefresh(u);
    case Queue(r, d, s) => ParseQueueKey(r, d, s);
  }

  /** No two keys share a text: the families are disjoint and each is injective. */
  lemma PrintInjective(k: Key, l: Key)
    requires Print(k).Some? && Print(k) == Print(l)
    ensures k == l
  {
    ParseOfPrint(k);
    ParseOfPrint(l);
  }

  lemma RefreshKeyInjective(u: Uuid, v: Uuid)
    ensures RefreshKey(u) == RefreshKey(v) <==> u == v
  {
    if RefreshKey(u) == RefreshKey(v) {
      PrintInjective(Refresh(u), Refresh(v));
    }
  }

  lemma TakenUuid(s: string)
    requires TakeUuid(s).Some?
    ensures s == Text(TakeUuid(s).value.0) + TakeUuid(s).value.1
  {
    assert s == s[..TEXT_LENGTH] + s[TEXT_LENGTH..];
  }

  lemma UuidThen(s: string, suffix: string)
    requires ParseUuidThen(s, suffix).Some?
    ensures s == Text(ParseUuidThen(s, suffix).value) + suffix
  {
    TakenUuid(s);
  }

  lemma ReconnectTail(tail: string)
    requires Strip(tail, ":reconnect:").Some? && ParseUuidThen(tail[11..], "").Some?
    ensures tail == ":reconnect:" + Text(ParseUuidThen(tail[11..], "").value)
  {
    UuidThen(tail[11..], "");
    var u := ParseUuidThen(tail[11..], "").value;
    assert tail == ":reconnect:" + tail[11..] && tail[11..] == Text(u) + "" == Text(u);
  }

  lemma PrintOfParseMatch(s: string)
    requires ParseMatch(s).Some?
    ensures Print(ParseMatch(s).value) == Some("match:" + s)
  {
    TakenUuid(s);
    var (m, tail) := TakeUuid(s).value;
    if tail != ":state" {
      ReconnectTail(tail);
      Associate2("match:", Text(m), ":reconnect:", Text(ParseUuidThen(tail[11..], "").value));
    } else {
      Associate2("match:", Text(m), ":state", "");
    }
  }

  lemma Associate2(head: string, a: string, sep: string, b: string)
    ensures head + (a + (sep + b)) == head + a + sep + b
    ensures head + (a + sep) == head + a + sep
  {
  }

  lemma Associate(head: string, a: string, sep: string, b: string, c: string)
    ensures head + (a + sep + (b + sep + c)) == head + a + sep + b + sep + c
  {
  }

  lemma PrintOfParseQueue(s: string)
    requires ParseQueue(s).Some?
    ensures Print(ParseQueue(s).value) == Some("queue:" + s)
  {
    var i := ColonAt(s);
    var rest := s[i + 1..];
    var j := ColonAt(rest);
    assert rest == rest[..j] + ":" + rest[j + 1..];
    assert s == s[..i] + ":" + rest;
    Associate("queue:", s[..i], ":", rest[..j], rest[j + 1..]);
  }

  lemma Enclosed(s: string, head: string, suffix: string)
    requires head <= s && ParseUuidThen(s[|head|..], suffix).Some?
    ensures s == head + Text(ParseUuidThen(s[|head|..], suffix).value) + suffix
  {
    UuidThen(s[|head|..], suffix);
    assert s == head + s[|head|..];
  }

  lemma PrintOfParseUser(s: string)
    requires ParseKey(s).Some? && s[0] != 'm' && s[0] != 'q'
    ensures Print(ParseKey(s).value) == Some(s)
  {
    if s[0] == 'u' {
      Enclosed(s, "user:", ":connection");
    } else if "rate:user:" <= s {
      Enclosed(s, "rate:user:", ":move");
    } else {
      Enclosed(s, "refresh:", "");
      var u := ParseUuidThen(s[8..], "").value;
      assert "refresh:" + Text(u) + "" == RefreshKey(u);
    }
  }

  /** The parser accepts printed keys and nothing else. */
  lemma PrintOfParse(s: string)
    requires ParseKey(s).Some?
    ensures Print(ParseKey(s).value) == Some(s)
  {
    if s[0] == 'm' {
      PrintOfParseMatch(s[6..]);
      assert s == "match:" + s[6..];
    } else if s[0] == 'q' {
      PrintOfParseQueue(s[6..]);
      assert s == "queue:" + s[6..];
    } else {
      PrintOfParseUser(s);
    }
  }
}
