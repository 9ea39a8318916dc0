/** The demo conversation that the table controller generates: eight rounds of
    a fixed seven-message script on a running clock, then every message text
    numbered "n: " from 1. */
module SampleData {
  import opened ChatModel
  import opened DecimalText

  const OneMinute: int := 60
  const OneDay: int := 86400  // 24 hours

  /** How many times the script is played. */
  const Rounds: nat := 8
  const RickyBobby: string := "Ricky Bobby"
  const CalNaughtonJr: string := "Cal Naughton Jr"

  /** The texts of the script's seven messages, in order. */
  const Hello: string := "Hello"
  const AreYouThere: string := "Are you there?"
  const YesImHere: string := "Yes, I'm here."
  const WhatDoYouWant: string := "What do you want?"
  const JustTesting: string := "Just testing the chat layout."
  const WordWrap: string :=
    "This message has enough text to cause word-wrap (max Bubble width is 75% of the cell width)."
  const DoneRight: string := "If we've done this right, everything is working as it should!"

  /** How far the clock moves after each of the seven messages of a round. */
  const ClockAdvances: seq<int> := [
    5 * OneMinute, 5 * OneMinute, 12 * OneMinute, OneDay + 20 * OneMinute,
    OneDay + 37 * OneMinute, 5 * OneMinute, OneDay + 20 * OneMinute]

  /** The clock reading of each message of a round, from the round's start. */
  const RoundOffsets: seq<int> := [
    0, 5 * OneMinute, 10 * OneMinute, 22 * OneMinute, OneDay + 42 * OneMinute,
    2 * OneDay + 79 * OneMinute, 2 * OneDay + 84 * OneMinute]

  /** How far the clock moves over a whole round: 3 days and 104 minutes. */
  const RoundAdvance: int := 265440  // 3 days and 104 minutes

  /** The direction of each message of a round, in order. */
  const DirectionPattern: seq<SOR> := [Received, Received, Sent, Sent, Received, Sent, Received]

  /** The author that goes with each direction in the script. */
  function AuthorOf(sor: SOR): string {
    match sor
    case Received => RickyBobby
    case Sent => CalNaughtonJr
  }

  /** The seven messages of one round when the clock reads `t` at its start. */
  function Round(t: int): (r: seq<ChatObject>)
    ensures |r| == 7
  {
    var t1 := t + 5 * OneMinute;
    var t2 := t1 + 5 * OneMinute;
    var t3 := t2 + 12 * OneMinute;
    var t4 := t3 + OneDay + 20 * OneMinute;
    var t5 := t4 + OneDay + 37 * OneMinute;
    var t6 := t5 + 5 * OneMinute;
    [ ChatObject(t, RickyBobby, Hello, Received),
      ChatObject(t1, RickyBobby, AreYouThere, Received),
      ChatObject(t2, CalNaughtonJr, YesImHere, Sent),
      ChatObject(t3, CalNaughtonJr, WhatDoYouWant, Sent),
      ChatObject(t4, RickyBobby, JustTesting, Received),
      ChatObject(t5, CalNaughtonJr, WordWrap, Sent),
      ChatObject(t6, RickyBobby, DoneRight, Received) ]
  }

  /** The records of the first `n` rounds, before numbering, starting at `seed`.
      The clock is never reset: round `r` starts `r` round advances after the seed. */
  function Conversation(seed: int, n: nat): (c: seq<ChatObject>)
    ensures |c| == 7 * n
  {
    if n == 0 then [] else Conversation(seed, n - 1) + Round(seed + (n - 1) * RoundAdvance)
  }

  /** Message `c` as the numbering pass leaves it when it is number `n`: the
      same time, author and direction, and the original text after a label. */
  function WithNumber(c: ChatObject, n: nat): (w: ChatObject)
    ensures w.postedDate == c.postedDate
    ensures w.userName == c.userName
    ensures w.sentOrReceived == c.sentOrReceived
    ensures |w.message| > |c.message| && w.message[|w.message| - |c.message|..] == c.message
  {
    c.(message := NumberLabel(n) + c.message)
  }

  /** Every message of `data` numbered by its 1-based position. */
  function Numbered(data: seq<ChatObject>): (r: seq<ChatObject>)
    ensures |r| == |data|
  {
    seq(|data|, i requires 0 <= i < |data| => WithNumber(data[i], i + 1))
  }

  /** What the generator leaves in an empty table. */
  function SampleMessages(seed: int): seq<ChatObject> {
    Numbered(Conversation(seed, Rounds))
  }

  // ----- one round -----

  /** Within a round, each message follows the previous one by that step's
      clock advance, and the next round starts one more advance later. */
  lemma RoundClock(t: int)
    ensures forall k :: 0 <= k < 7 ==> Round(t)[k].postedDate == t + RoundOffsets[k]
    ensures forall k :: 0 <= k < 6 ==>
      Round(t)[k + 1].postedDate == Round(t)[k].postedDate + ClockAdvances[k]
    ensures Round(t)[6].postedDate + ClockAdvances[6]
      == t + RoundAdvance
  {
  }

  /** Within a round, directions follow the script's pattern and each
      direction goes with its own author. */
  lemma RoundRoles(t: int)
    ensures forall k :: 0 <= k < 7 ==>
      Round(t)[k].sentOrReceived == DirectionPattern[k] &&
      Round(t)[k].userName == AuthorOf(Round(t)[k].sentOrReceived)
  {
  }

  // ----- the whole conversation -----

  /** Message `k` of round `r` sits at position 7 * r + k. */
  lemma {:induction false} ConversationAt(seed: int, n: nat, r: nat, k: nat)
    requires r < n && k < 7
    ensures |Conversation(seed, n)| == 7 * n
    ensures Conversation(seed, n)[7 * r + k] == Round(seed + r * RoundAdvance)[k]
  {
    var prev := Conversation(seed, n - 1);
    assert Conversation(seed, n) == prev + Round(seed + (n - 1) * RoundAdvance);
    if r < n - 1 {
      ConversationAt(seed, n - 1, r, k);
      assert 7 * r + k < |prev|;
    } else {
      assert 7 * r + k == |prev| + k;
    }
  }

  /** The time of message `k` of round `r`. */
  lemma ConversationTime(seed: int, n: nat, r: nat, k: nat)
    requires r < n && k < 7
    ensures |Conversation(seed, n)| == 7 * n
    ensures Conversation(seed, n)[7 * r + k].postedDate == seed + r * RoundAdvance + RoundOffsets[k]
  {
    ConversationAt(seed, n, r, k);
    RoundClock(seed + r * RoundAdvance);
  }

  /** The first record carries the seed, and every later record carries the
      previous record's time plus the clock advance that followed it. */
  lemma ConversationClock(seed: int, n: nat)
    ensures n > 0 ==> Conversation(seed, n)[0].postedDate == seed
    ensures forall i :: 0 < i < |Conversation(seed, n)| ==>
      Conversation(seed, n)[i].postedDate
        == Conversation(seed, n)[i - 1].postedDate + ClockAdvances[(i - 1) % 7]
  {
    var c := Conversation(seed, n);
    if n > 0 {
      ConversationTime(seed, n, 0, 0);
    }
    forall i | 0 < i < |c|
      ensures c[i].postedDate == c[i - 1].postedDate + ClockAdvances[(i - 1) % 7]
    {
      var r, k := (i - 1) / 7, (i - 1) % 7;
      assert i - 1 == 7 * r + k;
      ConversationTime(seed, n, r, k);
      if k < 6 {
        ConversationTime(seed, n, r, k + 1);
      } else {
        ConversationTime(seed, n, r + 1, 0);
        assert (r + 1) * RoundAdvance == r * RoundAdvance + RoundAdvance;
      }
    }
  }

  /** Positive steps between neighbours make the whole list strictly increasing. */
  lemma {:induction false} IncreasingFromSteps(data: seq<ChatObject>, i: nat, j: nat)
    requires forall k :: 0 < k < |data| ==> data[k - 1].postedDate < data[k].postedDate
    requires i < j < |data|
    ensures data[i].postedDate < data[j].postedDate
    decreases j - i
  {
    if i + 1 < j {
      IncreasingFromSteps(data, i + 1, j);
    }
  }

  lemma ConversationIncreasing(seed: int, n: nat)
    ensures StrictlyIncreasing(Conversation(seed, n))
  {
    var c := Conversation(seed, n);
    ConversationClock(seed, n);
    forall k | 0 < k < |c| ensures c[k - 1].postedDate < c[k].postedDate {
      assert ClockAdvances[(k - 1) % 7] > 0;
    }
    forall i, j | 0 <= i < j < |c| ensures c[i].postedDate < c[j].postedDate {
      IncreasingFromSteps(c, i, j);
    }
  }

  /** Every round plays the direction pattern, and "Ricky Bobby" always
      receives while "Cal Naughton Jr" always sends. */
  lemma ConversationRoles(seed: int, n: nat)
    ensures forall i :: 0 <= i < |Conversation(seed, n)| ==>
      Conversation(seed, n)[i].sentOrReceived == DirectionPattern[i % 7] &&
      Conversation(seed, n)[i].userName == AuthorOf(Conversation(seed, n)[i].sentOrReceived)
  {
    var c := Conversation(seed, n);
    forall i | 0 <= i < |c|
      ensures c[i].sentOrReceived == DirectionPattern[i % 7]
      ensures c[i].userName == AuthorOf(c[i].sentOrReceived)
    {
      var r, k := i / 7, i % 7;
      ConversationAt(seed, n, r, k);
      RoundRoles(seed + r * RoundAdvance);
    }
  }

  // ----- the numbering pass -----

  /** Numbering keeps the length, the time, the author and the direction of
      every message and puts the label "i+1: " in front of its text. */
  lemma NumberedFields(data: seq<ChatObject>)
    ensures |Numbered(data)| == |data|
    ensures forall i :: 0 <= i < |data| ==>
      Numbered(data)[i].postedDate == data[i].postedDate &&
      Numbered(data)[i].userName == data[i].userName &&
      Numbered(data)[i].sentOrReceived == data[i].sentOrReceived &&
      Numbered(data)[i].message == NatToString(i + 1) + ": " + data[i].message
  {
  }

  /** The label of every numbered message reads back as its 1-based position
      and the text it was put in front of. */
  lemma NumberedReadsBack(data: seq<ChatObject>, i: nat)
    requires i < |data|
    ensures ReadNumberLabel(Numbered(data)[i].message) == Some((i + 1, data[i].message))
  {
    NumberLabelRoundTrip(i + 1, data[i].message);
  }

  /** Numbering changes no time, so it keeps the order of the list. */
  lemma NumberedIncreasing(data: seq<ChatObject>)
    ensures StrictlyIncreasing(Numbered(data)) <==> StrictlyIncreasing(data)
  {
    NumberedFields(data);
  }

  // ----- what the generator produces -----

  /** Fifty-six numbered messages on strictly rising times from the seed, the
      direction pattern in every round, one author per direction, and message
      i labelled "i+1: ". */
  lemma SampleMessagesFacts(seed: int)
    ensures |SampleMessages(seed)| == 7 * Rounds == 56
    ensures SampleMessages(seed)[0].postedDate == seed
    ensures StrictlyIncreasing(SampleMessages(seed))
    ensures forall i :: 0 <= i < |SampleMessages(seed)| ==>
      SampleMessages(seed)[i].sentOrReceived == DirectionPattern[i % 7] &&
      SampleMessages(seed)[i].userName == AuthorOf(SampleMessages(seed)[i].sentOrReceived)
    ensures forall i :: 0 <= i < |SampleMessages(seed)| ==>
      ReadNumberLabel(SampleMessages(seed)[i].message).Some? &&
      ReadNumberLabel(SampleMessages(seed)[i].message).value.0 == i + 1
  {
    var c := Conversation(seed, Rounds);
    ConversationClock(seed, Rounds);
    ConversationIncreasing(seed, Rounds);
    ConversationRoles(seed, Rounds);
    NumberedFields(c);
    NumberedIncreasing(c);
    forall i | 0 <= i < |c|
      ensures ReadNumberLabel(SampleMessages(seed)[i].message).Some?
      ensures ReadNumberLabel(SampleMessages(seed)[i].message).value.0 == i + 1
    {
      NumberedReadsBack(c, i);
    }
  }

  /** Message `k` of round `r` of the generated list, with its label. */
  lemma SampleMessageAt(seed: int, r: nat, k: nat)
    requires r < Rounds && k < 7
    ensures |SampleMessages(seed)| == 56
    ensures SampleMessages(seed)[7 * r + k]
      == WithNumber(Round(seed + r * RoundAdvance)[k], 7 * r + k + 1)
  {
    ConversationAt(seed, Rounds, r, k);
  }

  /** The time of message `k` of round `r` of the generated list. */
  lemma SampleTime(seed: int, r: nat, k: nat)
    requires r < Rounds && k < 7
    ensures |SampleMessages(seed)| == 56
    ensures SampleMessages(seed)[7 * r + k].postedDate == seed + r * RoundAdvance + RoundOffsets[k]
  {
    ConversationTime(seed, Rounds, r, k);
    NumberedFields(Conversation(seed, Rounds));
  }

  /** The first message of the generated list: the seed's time, "Ricky
      Bobby", received, labelled 1. */
  lemma SampleFirstMessage(seed: int)
    ensures |SampleMessages(seed)| == 56
    ensures SampleMessages(seed)[0] == ChatObject(seed, "Ricky Bobby", "1: Hello", Received)
  {
    SampleMessageAt(seed, 0, 0);
    assert NumberLabel(1) == "1: ";
  }

  /** The second message follows the first by five minutes. */
  lemma SampleSecondMessage(seed: int)
    ensures |SampleMessages(seed)| == 56
    ensures SampleMessages(seed)[1] ==
      ChatObject(seed + 5 * 60, "Ricky Bobby", "2: Are you there?", Received)
  {
    var m := SampleMessages(seed);
    var first := Round(seed);
    assert m[1] == WithNumber(first[1], 2) by {
      SampleMessageAt(seed, 0, 1);
    }
    assert first[1] == ChatObject(seed + 5 * 60, RickyBobby, AreYouThere, Received);
    assert NumberLabel(2) + AreYouThere == "2: Are you there?";
  }

  /** The last two messages of the first round: the sixth is posted two days
      and 79 minutes after the seed, the seventh closes the round. */
  lemma SampleMessagesFirstRoundClose(seed: int)
    ensures |SampleMessages(seed)| == 56
    ensures SampleMessages(seed)[5].postedDate ==
      seed + (5 + 5 + 12) * 60 + (86400 + 20 * 60) + (86400 + 37 * 60)
    ensures SampleMessages(seed)[6].message ==
      "7: " + "If we've done this right, everything is working as it should!"
  {
    SampleMessageAt(seed, 0, 5);
    SampleMessageAt(seed, 0, 6);
    assert NumberLabel(7) == "7: ";
  }

  /** The second round starts one round advance after the seed, with the
      script's first message numbered 8. */
  lemma SampleMessagesSecondRound(seed: int)
    ensures |SampleMessages(seed)| == 56
    ensures SampleMessages(seed)[7] ==
      ChatObject(seed + RoundAdvance, "Ricky Bobby", "8: Hello", Received)
  {
    SampleMessageAt(seed, 1, 0);
    assert NatToString(8) == "8";
  }
}
