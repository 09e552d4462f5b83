/** Finding a turn's recorded reply in the event history, and the facilitator
    attempt loop built on it (ae_client.py). */
module Reconciliation {
  import opened Common

  // -- the turn marker ---------------------------------------------------------------

  const MARKER := "This is turn "

  predicate IsDigit(c: char) { '0' <= c <= '9' }

  function Digit(d: nat): (c: char)
    requires d < 10
    ensures IsDigit(c)
  {
    "0123456789"[d]
  }

  function Decimal(n: nat): (s: string)
    ensures s != [] && forall i :: 0 <= i < |s| ==> IsDigit(s[i])
  {
    if n < 10 then [Digit(n)] else Decimal(n / 10) + [Digit(n % 10)]
  }

  function Value(s: string): nat
    requires forall i :: 0 <= i < |s| ==> IsDigit(s[i])
  {
    if s == [] then 0
    else
      assert IsDigit(s[|s| - 1]);
      10 * Value(s[..|s| - 1]) + (s[|s| - 1] as int - '0' as int)
  }

  lemma {:induction false} ValueOfDecimal(n: nat)
    ensures Value(Decimal(n)) == n
  {
    if n < 10 {
      assert [Digit(n)][..0] == [];
    } else {
      ValueOfDecimal(n / 10);
      assert Decimal(n)[..|Decimal(n)| - 1] == Decimal(n / 10);
    }
  }

  /** The digits a string starts with. */
  function DigitRun(s: string): (r: string)
    ensures r <= s && forall i :: 0 <= i < |r| ==> IsDigit(r[i])
  {
    if s != [] && IsDigit(s[0]) then [s[0]] + DigitRun(s[1..]) else []
  }

  /** `marker + number`, not followed by a digit, at position i. */
  predicate MarkedAt(text: string, i: nat, n: nat) {
    && i <= |text| && MARKER + Decimal(n) <= text[i..]
    && var end := i + |MARKER| + |Decimal(n)|; end < |text| ==> !IsDigit(text[end])
  }

  ghost predicate Marked(text: string, n: nat) { exists i: nat :: MarkedAt(text, i, n) }

  lemma {:induction false} RunIsWhole(s: string, d: string)
    requires d <= s && (forall i :: 0 <= i < |d| ==> IsDigit(d[i])) && (|d| < |s| ==> !IsDigit(s[|d|]))
    ensures DigitRun(s) == d
  {
    if d != [] {
      RunIsWhole(s[1..], d[1..]);
      assert s[0] == d[0] && d == [d[0]] + d[1..];
    }
  }

  /** One place names one turn: turn 1 never matches turn 10. */
  lemma PlaceNamesOneTurn(text: string, i: nat, n: nat, m: nat)
    requires MarkedAt(text, i, n) && MarkedAt(text, i, m)
    ensures n == m
  {
    var tail := text[i + |MARKER|..];
    assert text[i..][|MARKER|..] == tail;
    forall k | k == n || k == m ensures DigitRun(tail) == Decimal(k) {
      var p := MARKER + Decimal(k);
      assert p <= text[i..] && p[|MARKER|..] == Decimal(k);
      assert Decimal(k) <= tail;
      RunIsWhole(tail, Decimal(k));
    }
    ValueOfDecimal(n);
    ValueOfDecimal(m);
  }

  /** A message as it is rendered: the header names turn m, with text before it
      (the story's id and run) and after it (what was said and decided so far). */
  function Message(before: string, m: nat, after: string): string { before + MARKER + Decimal(m) + after }

  /** Only the first letter of a marker is a capital T. */
  lemma MarkersDoNotOverlap(n: nat, k: nat)
    requires 0 < k < |MARKER + Decimal(n)|
    ensures (MARKER + Decimal(n))[k] != MARKER[0]
  {
    if k >= |MARKER| {
      assert IsDigit(Decimal(n)[k - |MARKER|]);
    }
  }

  lemma MarkedBefore(before: string, m: nat, after: string, i: nat, n: nat)
    requires i < |before|
    ensures MarkedAt(Message(before, m, after), i, n) <==> MarkedAt(before, i, n)
  {
    var text, p := Message(before, m, after), MARKER + Decimal(n);
    assert text[|before|] == MARKER[0];
    if MarkedAt(text, i, n) {
      assert text[i..][..|p|] == p;
      assert i + |p| > |before| ==> text[i..][|before| - i] == p[|before| - i];
      if i + |p| > |before| {
        MarkersDoNotOverlap(n, |before| - i);
      }
      assert before[i..][..|p|] == p;
    }
    if MarkedAt(before, i, n) {
      assert text[i..][..|p|] == before[i..][..|p|] == p;
    }
  }

  lemma MarkedAfter(before: string, m: nat, after: string, i: nat, n: nat)
    requires i > |before|
    ensures var start := |before| + |MARKER + Decimal(m)|;
      MarkedAt(Message(before, m, after), i, n) <==> i >= start && MarkedAt(after, i - start, n)
  {
    var text, header := Message(before, m, after), MARKER + Decimal(m);
    var start := |before| + |header|;
    if i < start {
      MarkersDoNotOverlap(m, i - |before|);
      assert text[i..][0] == header[i - |before|];
    } else if i <= |text| {
      assert text[i..] == after[i - start..];
    }
  }

  lemma HeaderIsMarked(before: string, m: nat, after: string)
    requires after != "" ==> !IsDigit(after[0])
    ensures MarkedAt(Message(before, m, after), |before|, m)
  {
    assert Message(before, m, after)[|before|..] == MARKER + Decimal(m) + after;
  }

  /** Wherever a message is marked, it is by its header or by the text around it. */
  lemma MarkedWhere(before: string, m: nat, after: string, i: nat, n: nat)
    requires (after != "" ==> !IsDigit(after[0])) && MarkedAt(Message(before, m, after), i, n)
    ensures n == m || Marked(before, n) || Marked(after, n)
  {
    if i < |before| {
      MarkedBefore(before, m, after, i, n);
    } else if i > |before| {
      MarkedAfter(before, m, after, i, n);
    } else {
      HeaderIsMarked(before, m, after);
      PlaceNamesOneTurn(Message(before, m, after), i, n, m);
    }
  }

  lemma AroundIsMarked(before: string, m: nat, after: string, n: nat)
    requires Marked(before, n) || Marked(after, n)
    ensures Marked(Message(before, m, after), n)
  {
    if Marked(before, n) {
      var i: nat :| MarkedAt(before, i, n);
      MarkedBefore(before, m, after, i, n);
    } else {
      var i: nat :| MarkedAt(after, i, n);
      MarkedAfter(before, m, after, |before| + |MARKER + Decimal(m)| + i, n);
    }
  }

  /** A message is taken for turn n exactly when its header says so, or the text
      around the header happens to contain turn n's marker. */
  lemma HeaderMatchesIff(before: string, m: nat, after: string, n: nat)
    requires after != "" ==> !IsDigit(after[0])
    ensures Marked(Message(before, m, after), n) <==> n == m || Marked(before, n) || Marked(after, n)
  {
    HeaderIsMarked(before, m, after);
    if Marked(Message(before, m, after), n) {
      var i: nat :| MarkedAt(Message(before, m, after), i, n);
      MarkedWhere(before, m, after, i, n);
    }
    if Marked(before, n) || Marked(after, n) {
      AroundIsMarked(before, m, after, n);
    }
  }

  // -- the event history ------------------------------------------------------------------

  /** Parts without text are empty strings. */
  datatype Event = Event(user: bool, parts: seq<string>)

  function Texts(parts: seq<string>): (r: seq<string>)
    ensures forall t :: t in r ==> t != ""
  {
    if parts == [] then []
    else if parts[|parts| - 1] != "" then Texts(parts[..|parts| - 1]) + [parts[|parts| - 1]]
    else Texts(parts[..|parts| - 1])
  }

  ghost predicate Own(e: Event, n: nat) {
    e.user && exists i :: 0 <= i < |Texts(e.parts)| && Marked(Texts(e.parts)[i], n)
  }

  /** Which events are a turn's own user messages. */
  type Matcher = Event -> bool

  ghost function OwnOf(n: nat): Matcher { e => Own(e, n) }

  predicate Replies(e: Event) { !e.user && Texts(e.parts) != [] }

  function TextOf(e: Event): string
    requires Replies(e)
  {
    Texts(e.parts)[|Texts(e.parts)| - 1]
  }

  /** The last model event in a range that has a text. */
  function LastReplier(events: seq<Event>, lo: nat, hi: nat): (r: Option<nat>)
    requires lo <= hi <= |events|
    ensures r.Some? ==> lo <= r.value < hi && Replies(events[r.value])
    decreases hi
  {
    if hi == lo then None
    else if Replies(events[hi - 1]) then Some(hi - 1)
    else LastReplier(events, lo, hi - 1)
  }

  /** Its last text. */
  function LastReply(events: seq<Event>, lo: nat, hi: nat): string
    requires lo <= hi <= |events|
  {
    var r := LastReplier(events, lo, hi);
    if r.None? then "" else TextOf(events[r.value])
  }

  /** Part j of model event i is the last non-empty part of any model event in the range. */
  predicate LastPart(events: seq<Event>, lo: nat, hi: nat, i: nat, j: nat)
    requires hi <= |events|
  {
    && lo <= i < hi && !events[i].user && j < |events[i].parts| && events[i].parts[j] != ""
    && Empty(events[i].parts[j + 1..]) && forall h :: i < h < hi && !events[h].user ==> Empty(events[h].parts)
  }

  predicate Empty(parts: seq<string>) { forall l :: 0 <= l < |parts| ==> parts[l] == "" }

  lemma {:induction false} TextsMeaning(parts: seq<string>)
    ensures Texts(parts) == [] <==> Empty(parts)
    ensures forall t :: t in Texts(parts) <==> t != "" && t in parts
  {
    if parts != [] {
      TextsMeaning(parts[..|parts| - 1]);
      assert parts == parts[..|parts| - 1] + [parts[|parts| - 1]];
    }
  }

  lemma {:induction false} LastTextIs(parts: seq<string>, j: nat)
    requires j < |parts| && parts[j] != "" && Empty(parts[j + 1..])
    ensures Texts(parts) != [] && Texts(parts)[|Texts(parts)| - 1] == parts[j]
  {
    if j < |parts| - 1 {
      assert parts[j + 1..][|parts| - 2 - j] == "";
      assert parts[..|parts| - 1][j + 1..] == parts[j + 1..][..|parts| - 2 - j];
      LastTextIs(parts[..|parts| - 1], j);
    }
  }

  /** The reply is the last non-empty part of the range's model events. */
  lemma {:induction false} LastReplyIs(events: seq<Event>, lo: nat, hi: nat, i: nat, j: nat)
    requires lo <= hi <= |events| && LastPart(events, lo, hi, i, j)
    ensures LastReply(events, lo, hi) == events[i].parts[j]
    decreases hi
  {
    if i == hi - 1 {
      LastTextIs(events[i].parts, j);
    } else {
      TextsMeaning(events[hi - 1].parts);
      LastReplyIs(events, lo, hi - 1, i, j);
    }
  }

  /** It is missing exactly when these have no text at all. */
  lemma {:induction false} NoReplyIff(events: seq<Event>, lo: nat, hi: nat)
    requires lo <= hi <= |events|
    ensures LastReply(events, lo, hi) == "" <==> forall h :: lo <= h < hi && !events[h].user ==> Empty(events[h].parts)
    decreases hi
  {
    if lo < hi {
      TextsMeaning(events[hi - 1].parts);
      NoReplyIff(events, lo, hi - 1);
      assert Replies(events[hi - 1]) ==> TextOf(events[hi - 1]) in Texts(events[hi - 1].parts);
    }
  }

  /** A user message is turn n's when any of its parts has the marker. */
  lemma OwnIff(e: Event, n: nat)
    ensures OwnOf(n)(e) <==> e.user && exists j :: 0 <= j < |e.parts| && Marked(e.parts[j], n)
  {
    TextsMeaning(e.parts);
    if j :| 0 <= j < |e.parts| && Marked(e.parts[j], n) {
      assert e.parts[j] != "" && e.parts[j] in Texts(e.parts);
      var i :| 0 <= i < |Texts(e.parts)| && Texts(e.parts)[i] == e.parts[j];
    }
    if i :| 0 <= i < |Texts(e.parts)| && Marked(Texts(e.parts)[i], n) {
      var t := Texts(e.parts)[i];
      assert t in e.parts;
      var j :| 0 <= j < |e.parts| && e.parts[j] == t;
    }
  }

  method FinalModelReply(events: seq<Event>, lo: nat) returns (reply: string)
    requires lo <= |events|
    ensures reply == LastReply(events, lo, |events|)
  {
    reply := "";
    for i := lo to |events|
      invariant reply == LastReply(events, lo, i)
    {
      if !events[i].user {
        var texts := Texts(events[i].parts);
        ghost var before := reply;
        for j := 0 to |texts|
          invariant reply == if j == 0 then before else texts[j - 1]
        {
          reply := texts[j];
        }
      }
    }
  }

  /** The last user event, as an index. */
  function LastUser(events: seq<Event>, hi: nat): (k: Option<nat>)
    requires hi <= |events|
    ensures k.Some? ==> k.value < hi && events[k.value].user
    decreases hi
  {
    if hi == 0 then None
    else if events[hi - 1].user then Some(hi - 1)
    else LastUser(events, hi - 1)
  }

  lemma {:induction false} LastUserMeaning(events: seq<Event>, hi: nat)
    requires hi <= |events|
    ensures var k := LastUser(events, hi);
      if k.Some? then forall i :: k.value < i < hi ==> !events[i].user else forall i :: 0 <= i < hi ==> !events[i].user
  {
    if hi > 0 {
      LastUserMeaning(events, hi - 1);
    }
  }

  /** What a user message and the last reply after it say. */
  function Attributed(mine: bool, reply: string): Option<string> {
    if !mine || reply == "" then None else Some(reply)
  }

  /** The reply recorded for a turn: the last user event is this turn's, and the
      reply is the last model text after it. */
  function Recorded(events: seq<Event>, own: Matcher): Option<string> {
    var k := LastUser(events, |events|);
    if k.None? then None else Attributed(own(events[k.value]), LastReply(events, k.value + 1, |events|))
  }

  /** The flag-carrying loop. */
  method RecoveredTurnReply(events: seq<Event>, own: Matcher) returns (r: Option<string>)
    ensures r == Recorded(events, own)
  {
    var last: Option<nat> := None;
    var laterUser := false;
    for i := 0 to |events|
      invariant last.Some? ==> last.value < i && events[last.value].user && own(events[last.value])
      invariant last.Some? && !laterUser ==> forall j :: last.value < j < i ==> !events[j].user
      invariant last.Some? && laterUser ==> (exists j :: last.value < j < i && events[j].user && !own(events[j])
                                                       && forall l :: j < l < i ==> !events[l].user)
      invariant last.None? ==> !laterUser && forall j :: 0 <= j < i && events[j].user ==> !own(events[j])
    {
      if events[i].user {
        if own(events[i]) {
          last := Some(i);
          laterUser := false;
        } else if last.Some? {
          laterUser := true;
        }
      }
    }
    LastUserMeaning(events, |events|);
    if last.None? || laterUser {
      return None;
    }
    assert LastUser(events, |events|) == last;
    var reply := FinalModelReply(events, last.value + 1);
    return if reply == "" then None else Some(reply);
  }

  /** A history whose last message is turn m's answers for turn n exactly when
      a reply follows, and n is m or the message quotes n's marker. */
  lemma OneTurnAnswersIff(events: seq<Event>, k: nat, before: string, m: nat, after: string, n: nat)
    requires after != "" ==> !IsDigit(after[0])
    requires LastUser(events, |events|) == Some(k) && Texts(events[k].parts) == [Message(before, m, after)]
    ensures Recorded(events, OwnOf(n)).Some? <==>
              LastReply(events, k + 1, |events|) != "" && (n == m || Marked(before, n) || Marked(after, n))
  {
    HeaderIsOwn(events[k], before, m, after, n);
    RecordedIff(events, k, OwnOf(n));
  }

  lemma RecordedIff(events: seq<Event>, k: nat, own: Matcher)
    requires LastUser(events, |events|) == Some(k)
    ensures Recorded(events, own).Some? <==> LastReply(events, k + 1, |events|) != "" && own(events[k])
  {
  }

  lemma HeaderIsOwn(message: Event, before: string, m: nat, after: string, n: nat)
    requires after != "" ==> !IsDigit(after[0])
    requires message.user && Texts(message.parts) == [Message(before, m, after)]
    ensures OwnOf(n)(message) <==> n == m || Marked(before, n) || Marked(after, n)
  {
    HeaderMatchesIff(before, m, after, n);
    assert Texts(message.parts)[0] == Message(before, m, after);
  }

  const Quoting := Heading + (MARKER + Decimal(9) + ", you said last time.")
  const Heading := ".\n\n## PO message\n\n"

  lemma QuotingMarks()
    ensures Marked(Quoting, 9)
  {
    assert Quoting[|Heading|..] == MARKER + Decimal(9) + ", you said last time.";
    assert MarkedAt(Quoting, |Heading|, 9);
  }

  /** In turn 8 the product owner quotes turn 9: a turn-9 post that is then lost
      before it arrives recovers turn 8's reply. */
  lemma QuotedMarkerRecoversOldReply(before: string, reply: string, later: seq<Attempt>, valid: string -> bool)
    requires reply != "" && valid(reply)
    ensures var log := [Event(true, [Message(before, 8, Quoting)]), Event(false, [reply])];
      Invoked(log, [Attempt([], Transport, true)] + later, OwnOf(9), valid) == (1, Recovered(reply))
  {
    var message := Event(true, [Message(before, 8, Quoting)]);
    SingleText(Message(before, 8, Quoting));
    QuotingMarks();
    HeaderIsOwn(message, before, 8, Quoting, 9);
    OneExchange(message, reply, OwnOf(9));
    LostSummaryRecoversFirstReply([message, Event(false, [reply])], later, OwnOf(9), valid);
  }

  lemma OneExchange(message: Event, reply: string, own: Matcher)
    requires message.user && own(message) && reply != ""
    ensures Recorded([message, Event(false, [reply])], own) == Some(reply)
  {
    var log := [message, Event(false, [reply])];
    SingleText(reply);
    assert LastUser(log, 1) == Some(0) && LastUser(log, 2) == Some(0);
    assert LastReplier(log, 1, 2) == Some(1);
  }

  lemma SingleText(text: string)
    requires text != ""
    ensures Texts([text]) == [text]
  {
    assert [text][..0] == [];
  }

  // -- what an attempt adds -------------------------------------------------------------------

  lemma {:induction false} LastUserAppended(log: seq<Event>, added: seq<Event>, n: nat)
    requires n <= |added|
    ensures LastUser(log + added, |log| + n) ==
            if LastUser(added, n).Some? then Some(|log| + LastUser(added, n).value) else LastUser(log, |log|)
  {
    if n == 0 {
      LastUserPrefix(log, added, |log|);
    } else {
      assert (log + added)[|log| + n - 1] == added[n - 1];
      LastUserAppended(log, added, n - 1);
    }
  }

  lemma {:induction false} LastUserPrefix(log: seq<Event>, added: seq<Event>, n: nat)
    requires n <= |log|
    ensures LastUser(log + added, n) == LastUser(log, n)
  {
    if n > 0 {
      assert (log + added)[n - 1] == log[n - 1];
      LastUserPrefix(log, added, n - 1);
    }
  }

  lemma {:induction false} LastReplierAppended(log: seq<Event>, added: seq<Event>, lo: nat, hi: nat)
    requires lo <= hi <= |added|
    ensures var r := LastReplier(added, lo, hi);
      LastReplier(log + added, |log| + lo, |log| + hi) == if r.Some? then Some(|log| + r.value) else None
  {
    if lo < hi {
      assert (log + added)[|log| + hi - 1] == added[hi - 1];
      LastReplierAppended(log, added, lo, hi - 1);
    }
  }

  lemma LastReplyAppended(log: seq<Event>, added: seq<Event>, lo: nat)
    requires lo <= |added|
    ensures LastReply(log + added, |log| + lo, |log + added|) == LastReply(added, lo, |added|)
  {
    LastReplierAppended(log, added, lo, |added|);
    var r := LastReplier(added, lo, |added|);
    assert |log + added| == |log| + |added|;
    assert r.Some? ==> (log + added)[|log| + r.value] == added[r.value];
  }

  lemma RecordedIs(events: seq<Event>, k: nat, mine: bool, reply: string, own: Matcher)
    requires 0 < k <= |events|
    requires LastUser(events, |events|) == Some(k - 1) && own(events[k - 1]) == mine
    requires LastReply(events, k, |events|) == reply
    ensures Recorded(events, own) == Attributed(mine, reply)
  {
  }

  lemma RecordedAfter(log: seq<Event>, added: seq<Event>, k: nat, mine: bool, reply: string, own: Matcher)
    requires LastUser(added, |added|) == Some(k) && own(added[k]) == mine
    requires LastReply(log + added, |log| + k + 1, |log + added|) == reply
    ensures Recorded(log + added, own) == Attributed(mine, reply)
  {
    LastUserAppended(log, added, |added|);
    RecordedIs(log + added, |log| + k + 1, mine, reply, own);
  }

  /** Once this attempt's user message is in the history, only what the attempt
      itself added counts: the message and the last reply after it. */
  lemma RecoveryAfterMessage(log: seq<Event>, added: seq<Event>, k: nat, mine: bool, reply: string, own: Matcher)
    requires LastUser(added, |added|) == Some(k) && own(added[k]) == mine && LastReply(added, k + 1, |added|) == reply
    ensures Recorded(log + added, own) == Attributed(mine, reply)
  {
    LastReplyAppended(log, added, k + 1);
    RecordedAfter(log, added, k, mine, reply, own);
  }

  /** Before that, the history answers for the last earlier message, if that one
      carried the same turn number. */
  lemma RecoveryBeforeMessage(log: seq<Event>, added: seq<Event>, own: Matcher)
    requires LastUser(added, |added|).None?
    ensures var k := LastUser(log, |log|);
      Recorded(log + added, own) == if k.None? then None
          else Attributed(own(log[k.value]), LastReply(log + added, k.value + 1, |log + added|))
  {
    LastUserAppended(log, added, |added|);
  }

  // -- the attempt loop ------------------------------------------------------------------------

  /** What the caller sees of one post. */
  datatype Seen = Reply(text: string) | Silent | Retryable | Terminal | Transport

  /** What one post did to the history, what was seen, and whether the
      reconciliation read that would follow succeeds. */
  datatype Attempt = Attempt(added: seq<Event>, seen: Seen, readable: bool)

  datatype Ended =
    | Answered(text: string)
    | Recovered(text: string)
    | Refused
    | Exhausted

  function Reconciled(log: seq<Event>, a: Attempt, own: Matcher, valid: string -> bool): Option<string> {
    var r := Recorded(log + a.added, own);
    if a.readable && r.Some? && valid(r.value) then r else None
  }

  /** Posts sent and how the loop ended, given what each post would do. */
  function Invoked(log: seq<Event>, attempts: seq<Attempt>, own: Matcher, valid: string -> bool): (r: (nat, Ended))
    ensures r.0 <= |attempts|
    ensures if r.1.Exhausted? then r.0 == |attempts| else r.0 >= 1
    decreases |attempts|
  {
    if attempts == [] then (0, Exhausted)
    else
      var a := attempts[0];
      if a.seen.Reply? then (1, Answered(a.seen.text))
      else if a.seen.Terminal? then (1, Refused)
      else if Reconciled(log, a, own, valid).Some? then (1, Recovered(Reconciled(log, a, own, valid).value))
      else
        var (sent, end) := Invoked(log + a.added, attempts[1..], own, valid);
        (sent + 1, end)
  }

  /** The attempt loop. */
  method Invoke(start: seq<Event>, attempts: seq<Attempt>, own: Matcher, valid: string -> bool)
    returns (sent: nat, end: Ended)
    ensures (sent, end) == Invoked(start, attempts, own, valid)
  {
    var log := start;
    sent := 0;
    while sent < |attempts|
      invariant sent <= |attempts|
      invariant var rest := Invoked(log, attempts[sent..], own, valid);
        Invoked(start, attempts, own, valid) == (sent + rest.0, rest.1)
    {
      var a := attempts[sent];
      assert attempts[sent..][0] == a && attempts[sent..][1..] == attempts[sent + 1..];
      sent := sent + 1;
      match a.seen {
        case Reply(text) => return sent, Answered(text);
        case Terminal => return sent, Refused;
        case _ =>
      }
      if a.readable {
        var recorded := RecoveredTurnReply(log + a.added, own);
        if recorded.Some? && valid(recorded.value) {
          return sent, Recovered(recorded.value);
        }
      }
      log := log + a.added;
    }
    end := Exhausted;
  }

  /** The history after the first k posts. */
  function LogAfter(log: seq<Event>, attempts: seq<Attempt>, k: nat): seq<Event>
    requires k <= |attempts|
    decreases k
  {
    if k == 0 then log else LogAfter(log + attempts[0].added, attempts[1..], k - 1)
  }

  /** With readable histories and schema-valid replies, no post after the first
      is sent once the history holds a reply to this turn. */
  lemma {:induction false} NoPostAfterRecordedReply(log: seq<Event>, attempts: seq<Attempt>, own: Matcher,
                                                    valid: string -> bool, k: nat)
    requires forall i :: 0 <= i < |attempts| ==> attempts[i].readable
    requires forall i :: 0 < i <= |attempts| && Recorded(LogAfter(log, attempts, i), own).Some?
               ==> valid(Recorded(LogAfter(log, attempts, i), own).value)
    requires 1 <= k < Invoked(log, attempts, own, valid).0
    ensures Recorded(LogAfter(log, attempts, k), own).None?
    decreases k
  {
    assert LogAfter(log, attempts, 1) == LogAfter(log + attempts[0].added, attempts[1..], 0);
    if k > 1 {
      var rest := log + attempts[0].added;
      forall i | 0 < i <= |attempts| - 1 && Recorded(LogAfter(rest, attempts[1..], i), own).Some?
        ensures valid(Recorded(LogAfter(rest, attempts[1..], i), own).value)
      {
        assert LogAfter(log, attempts, i + 1) == LogAfter(rest, attempts[1..], i);
      }
      NoPostAfterRecordedReply(rest, attempts[1..], own, valid, k - 1);
    }
  }

  /** A recovered text is a reply recorded for this turn number, and schema-valid. */
  lemma {:induction false} RecoveredWasRecorded(log: seq<Event>, attempts: seq<Attempt>, own: Matcher,
                                                valid: string -> bool)
    requires Invoked(log, attempts, own, valid).1.Recovered?
    ensures var (sent, end) := Invoked(log, attempts, own, valid);
      Recorded(LogAfter(log, attempts, sent), own) == Some(end.text) && valid(end.text)
    decreases |attempts|
  {
    var a := attempts[0];
    if Reconciled(log, a, own, valid).None? {
      RecoveredWasRecorded(log + a.added, attempts[1..], own, valid);
    } else {
      assert LogAfter(log, attempts, 1) == LogAfter(log + a.added, attempts[1..], 0);
    }
  }

  /** What an attempt does not settle: it brought no reply and no terminal error,
      and its history was unreadable or has no valid reply for the turn. */
  predicate Unsettled(log: seq<Event>, a: Attempt, own: Matcher, valid: string -> bool) {
    && !a.seen.Reply? && a.seen != Terminal
    && (a.readable && Recorded(log, own).Some? ==> !valid(Recorded(log, own).value))
  }

  /** How the last attempt settled it. */
  predicate SettledBy(log: seq<Event>, a: Attempt, own: Matcher, valid: string -> bool, end: Ended) {
    match end
    case Answered(text) => a.seen == Reply(text)
    case Refused => a.seen == Terminal
    case Recovered(text) =>
      !a.seen.Reply? && a.seen != Terminal && a.readable && Recorded(log, own) == Some(text) && valid(text)
    case Exhausted => false
  }

  ghost predicate AllUnsettled(log: seq<Event>, attempts: seq<Attempt>, n: nat, own: Matcher, valid: string -> bool)
    requires n <= |attempts|
  {
    forall i: nat :: i < n ==> Unsettled(LogAfter(log, attempts, i + 1), attempts[i], own, valid)
  }

  lemma OneMoreUnsettled(log: seq<Event>, attempts: seq<Attempt>, n: nat, own: Matcher, valid: string -> bool)
    requires n < |attempts| && Unsettled(log + attempts[0].added, attempts[0], own, valid)
    requires AllUnsettled(log + attempts[0].added, attempts[1..], n, own, valid)
    ensures AllUnsettled(log, attempts, n + 1, own, valid)
  {
    forall i: nat | i <= n ensures Unsettled(LogAfter(log, attempts, i + 1), attempts[i], own, valid) {
      if i > 0 {
        assert LogAfter(log, attempts, i + 1) == LogAfter(log + attempts[0].added, attempts[1..], i);
        assert Unsettled(LogAfter(log + attempts[0].added, attempts[1..], i - 1 + 1), attempts[1..][i - 1], own, valid);
      }
    }
  }

  /** The loop ends with the first attempt that settles it: by its reply, by its
      terminal error, or, after any other failure, by a valid reply that a
      readable history has for the turn. With none it is exhausted. */
  lemma {:induction false} InvokedMeaning(log: seq<Event>, attempts: seq<Attempt>, own: Matcher, valid: string -> bool)
    ensures var (sent, end) := Invoked(log, attempts, own, valid);
      var open := if end.Exhausted? then sent else sent - 1;
      && (end.Exhausted? ==> sent == |attempts|) && 0 <= open <= sent <= |attempts|
      && AllUnsettled(log, attempts, open, own, valid)
      && (open < sent ==> SettledBy(LogAfter(log, attempts, sent), attempts[open], own, valid, end))
    decreases |attempts|
  {
    if attempts != [] && Unsettled(log + attempts[0].added, attempts[0], own, valid) {
      var after := log + attempts[0].added;
      InvokedMeaning(after, attempts[1..], own, valid);
      var (sent, end) := Invoked(after, attempts[1..], own, valid);
      OneMoreUnsettled(log, attempts, if end.Exhausted? then sent else sent - 1, own, valid);
    }
  }

  // -- when the history before the invocation matters -----------------------------------------------

  /** This post settles the invocation, or at least its message arrived. */
  predicate Delivered(a: Attempt) { a.seen.Reply? || a.seen.Terminal? || LastUser(a.added, |a.added|).Some? }

  lemma RecentMessageDecides(log: seq<Event>, other: seq<Event>, recent: seq<Event>, own: Matcher)
    requires LastUser(recent, |recent|).Some?
    ensures Recorded(log + recent, own) == Recorded(other + recent, own)
  {
    var k := LastUser(recent, |recent|).value;
    var mine, reply := own(recent[k]), LastReply(recent, k + 1, |recent|);
    RecoveryAfterMessage(log, recent, k, mine, reply, own);
    RecoveryAfterMessage(other, recent, k, mine, reply, own);
  }

  lemma {:induction false} OlderHistoryIsIrrelevant(
    log: seq<Event>, other: seq<Event>, recent: seq<Event>, attempts: seq<Attempt>, own: Matcher, valid: string -> bool)
    requires LastUser(recent, |recent|).Some?
    ensures Invoked(log + recent, attempts, own, valid) == Invoked(other + recent, attempts, own, valid)
    decreases |attempts|
  {
    if attempts != [] {
      var a := attempts[0];
      assert log + recent + a.added == log + (recent + a.added)
          && other + recent + a.added == other + (recent + a.added);
      LastUserAppended(recent, a.added, |a.added|);
      RecentMessageDecides(log, other, recent + a.added, own);
      OlderHistoryIsIrrelevant(log, other, recent + a.added, attempts[1..], own, valid);
    }
  }

  /** Unless the first post is lost before its message arrives, what was recorded
      before the invocation has no influence: no reply of an earlier request is
      ever reused, whatever happens to the later posts. */
  lemma DeliveredPostForgetsHistory(log: seq<Event>, other: seq<Event>, attempts: seq<Attempt>, own: Matcher,
                                    valid: string -> bool)
    requires attempts != [] && Delivered(attempts[0])
    ensures Invoked(log, attempts, own, valid) == Invoked(other, attempts, own, valid)
  {
    var a := attempts[0];
    if !a.seen.Reply? && !a.seen.Terminal? {
      RecentMessageDecides(log, other, a.added, own);
      OlderHistoryIsIrrelevant(log, other, a.added, attempts[1..], own, valid);
    }
  }

  /** A first post that is lost before its message arrives recovers an earlier
      reply exactly when the history can be read, its last message carries this
      turn number, and a reply to it that fits the schema is there. */
  lemma LostPostRecoversIff(log: seq<Event>, lost: Attempt, later: seq<Attempt>, own: Matcher, valid: string -> bool)
    requires !Delivered(lost)
    ensures var k := LastUser(log, |log|);
      var reply := if k.Some? then LastReply(log + lost.added, k.value + 1, |log + lost.added|) else "";
      var (sent, end) := Invoked(log, [lost] + later, own, valid);
      && (sent == 1 && end.Recovered? <==> lost.readable && k.Some? && own(log[k.value]) && reply != "" && valid(reply))
      && (sent == 1 && end.Recovered? ==> end.text == reply)
  {
    var attempts := [lost] + later;
    assert attempts[0] == lost && attempts[1..] == later;
    RecoveryBeforeMessage(log, lost.added, own);
  }

  /** Both calls of a delegated turn carry one turn number: a summary post that
      is lost before its message arrives recovers the first call's reply. */
  lemma LostSummaryRecoversFirstReply(log: seq<Event>, later: seq<Attempt>, own: Matcher, valid: string -> bool)
    requires Recorded(log, own).Some? && valid(Recorded(log, own).value)
    ensures Invoked(log, [Attempt([], Transport, true)] + later, own, valid) == (1, Recovered(Recorded(log, own).value))
  {
    assert log + [] == log;
    var attempts := [Attempt([], Transport, true)] + later;
    assert attempts[0] == Attempt([], Transport, true);
  }
}
