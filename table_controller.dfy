/** The table view controller's message list and the method that fills it. */
module TableController {
  import opened ChatModel
  import opened DecimalText
  import opened SampleData

  class ChatTableViewController {
    /** The messages the table shows, one row each, in order. */
    var theData: seq<ChatObject>

    constructor ()
      ensures theData == []
    {
      theData := [];
    }

    /** Appends eight rounds of the script, starting the clock at `seed`,
        then labels every message of the list with its 1-based position. */
    method GetTheData(seed: int)
      modifies this
      ensures theData == Numbered(old(theData) + Conversation(seed, Rounds))
      ensures old(theData) == [] ==> theData == SampleMessages(seed)
      ensures old(theData) == [] ==>
        |theData| == 56 && theData[0].postedDate == seed && StrictlyIncreasing(theData)
    {
      var d := seed;
      for round := 1 to Rounds + 1
        invariant theData == old(theData) + Conversation(seed, round - 1)
        invariant d == seed + (round - 1) * RoundAdvance
      {
        theData := theData + [ChatObject(d, RickyBobby, Hello, Received)];
        d := d + OneMinute * 5;
        theData := theData + [ChatObject(d, RickyBobby, AreYouThere, Received)];
        d := d + OneMinute * 5;
        theData := theData + [ChatObject(d, CalNaughtonJr, YesImHere, Sent)];
        d := d + OneMinute * 12;
        theData := theData + [ChatObject(d, CalNaughtonJr, WhatDoYouWant, Sent)];
        d := d + (OneDay + OneMinute * 20);
        theData := theData + [ChatObject(d, RickyBobby, JustTesting, Received)];
        d := d + (OneDay + OneMinute * 37);
        theData := theData + [ChatObject(d, CalNaughtonJr, WordWrap, Sent)];
        d := d + OneMinute * 5;
        theData := theData + [ChatObject(d, RickyBobby, DoneRight, Received)];
        d := d + (OneDay + OneMinute * 20);
      }

      ghost var raw := theData;
      NumberMessages();

      if old(theData) == [] {
        assert raw == Conversation(seed, Rounds);
        assert |theData| == 56 && theData[0].postedDate == seed && StrictlyIncreasing(theData) by {
          SampleMessagesFacts(seed);
        }
      }
    }

    /** The numbering pass: puts "n: " in front of the text of the n-th
        message, counting from 1, in place. */
    method NumberMessages()
      modifies this
      ensures theData == Numbered(old(theData))
    {
      ghost var raw := theData;
      for i := 0 to |theData|
        invariant |theData| == |raw|
        invariant forall j :: 0 <= j < i ==> theData[j] == WithNumber(raw[j], j + 1)
        invariant forall j :: i <= j < |raw| ==> theData[j] == raw[j]
      {
        theData := theData[i := theData[i].(message := NatToString(i + 1) + ": " + theData[i].message)];
      }
    }
  }
}
