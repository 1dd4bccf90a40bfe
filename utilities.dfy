/** utilities.py: the prompt/reply loop that gathers form fields, and the server-info line. */
module Utilities {
  import opened Values
  import opened Communication
  import opened Session

  function PromptText(field: string): string {
    "Enter " + field + ": "
  }

  function PromptEnvelope(field: string): Envelope {
    Envelope(Success, Str(PromptText(field)), NoData)
  }

  /**
   * The events of `get_user_input` when the client answers `replies`, one per
   * field: the prompt for each field, in list order, and right after it the
   * reply it gets.
   */
  function Exchange(fields: seq<string>, replies: seq<string>): seq<Event>
    requires |replies| == |fields|
  {
    if fields == [] then []
    else [Sent(PromptEnvelope(fields[0])), Got(replies[0])] + Exchange(fields[1..], replies[1..])
  }

  /** Prompts and replies alternate, one reply after each prompt, the prompts in list order. */
  lemma {:induction false} ExchangeAlternates(fields: seq<string>, replies: seq<string>)
    requires |replies| == |fields|
    ensures |Exchange(fields, replies)| == 2 * |fields|
    ensures forall i :: 0 <= i < |fields| ==> Exchange(fields, replies)[2 * i] == Sent(PromptEnvelope(fields[i]))
    ensures forall i :: 0 <= i < |fields| ==> Exchange(fields, replies)[2 * i + 1] == Got(replies[i])
  {
    if fields != [] {
      var t := Exchange(fields, replies);
      var u := Exchange(fields[1..], replies[1..]);
      ExchangeAlternates(fields[1..], replies[1..]);
      assert forall i :: 1 <= i < |fields| ==> t[2 * i] == u[2 * (i - 1)];
      assert forall i :: 1 <= i < |fields| ==> t[2 * i + 1] == u[2 * (i - 1) + 1];
    }
  }

  lemma {:induction false} ExchangeSnoc(fields: seq<string>, replies: seq<string>, f: string, a: string)
    requires |replies| == |fields|
    ensures Exchange(fields + [f], replies + [a]) == Exchange(fields, replies) + [Sent(PromptEnvelope(f)), Got(a)]
  {
    if fields != [] {
      assert (fields + [f])[1..] == fields[1..] + [f];
      assert (replies + [a])[1..] == replies[1..] + [a];
      ExchangeSnoc(fields[1..], replies[1..], f, a);
    }
  }

  /** One more field answered extends the exchange of the fields before it. */
  lemma ExchangeStep(fields: seq<string>, replies: seq<string>, i: nat)
    requires i < |fields| && i < |replies|
    ensures Exchange(fields[..i + 1], replies[..i + 1]) == Exchange(fields[..i], replies[..i]) + [Sent(PromptEnvelope(fields[i])), Got(replies[i])]
  {
    assert fields[..i] + [fields[i]] == fields[..i + 1] && replies[..i] + [replies[i]] == replies[..i + 1];
    ExchangeSnoc(fields[..i], replies[..i], fields[i], replies[i]);
  }

  /**
   * The events of a form the client leaves unfinished: the fields it answered
   * with `replies`, then the prompt for the next field, which gets no reply.
   */
  function Abandoned(fields: seq<string>, replies: seq<string>): seq<Event>
    requires |replies| < |fields|
  {
    Exchange(fields[..|replies|], replies) + [Sent(PromptEnvelope(fields[|replies|]))]
  }

  /** The dict `get_user_input` builds: each field set, in turn, to the reply to its prompt. */
  function Answers(fields: seq<string>, replies: seq<string>): seq<(string, Json)>
    requires |replies| == |fields|
  {
    if fields == [] then []
    else
      var n := |fields| - 1;
      Put(Answers(fields[..n], replies[..n]), fields[n], Str(replies[n]))
  }

  lemma AnswersSnoc(fields: seq<string>, replies: seq<string>, i: nat)
    requires i < |fields| && i < |replies|
    ensures Answers(fields[..i + 1], replies[..i + 1]) == Put(Answers(fields[..i], replies[..i]), fields[i], Str(replies[i]))
  {
    assert fields[..i + 1][..i] == fields[..i] && replies[..i + 1][..i] == replies[..i];
  }

  lemma PromptReply(field: string)
    ensures Reply(Str(PromptText(field)), Null, "success") == PromptEnvelope(field)
  {
  }

  /** The dict has exactly the given fields as keys. */
  lemma {:induction false} AnswersKeys(fields: seq<string>, replies: seq<string>)
    requires |replies| == |fields|
    ensures Keys(Answers(fields, replies)) == set i | 0 <= i < |fields| :: fields[i]
  {
    if fields != [] {
      var n := |fields| - 1;
      AnswersKeys(fields[..n], replies[..n]);
      assert (set i | 0 <= i < |fields| :: fields[i]) == (set i | 0 <= i < n :: fields[..n][i]) + {fields[n]};
    }
  }

  /** Its keys are distinct: it is a well-formed dict. */
  lemma {:induction false} AnswersUniqueKeys(fields: seq<string>, replies: seq<string>)
    requires |replies| == |fields|
    ensures UniqueKeys(Answers(fields, replies))
  {
    if fields != [] {
      var n := |fields| - 1;
      AnswersUniqueKeys(fields[..n], replies[..n]);
      PutKeepsUniqueKeys(Answers(fields[..n], replies[..n]), fields[n], Str(replies[n]));
    }
  }

  /**
   * Each field holds the reply to its own prompt; a field asked more than once
   * holds the reply to the last time it was asked.
   */
  lemma {:induction false} AnswersLastReplyWins(fields: seq<string>, replies: seq<string>, i: nat)
    requires |replies| == |fields| && i < |fields|
    requires forall j :: i < j < |fields| ==> fields[j] != fields[i]
    ensures Lookup(Answers(fields, replies), fields[i]) == Some(Str(replies[i]))
  {
    var n := |fields| - 1;
    if i == n {
      LookupPutSame(Answers(fields[..n], replies[..n]), fields[n], Str(replies[n]));
    } else {
      AnswersLastReplyWins(fields[..n], replies[..n], i);
      LookupPutOther(Answers(fields[..n], replies[..n]), fields[n], Str(replies[n]), fields[i]);
    }
  }

  /**
   * `get_user_input(comm_handler, fields)`: for each field in turn, send its
   * prompt and take the next reply as its value. When the client runs out of
   * replies the end-of-stream error escapes after the unanswered prompt.
   */
  method GetUserInput(conv: Conversation, fields: seq<string>) returns (r: Result<seq<(string, Json)>, Exc>)
    modifies conv
    ensures conv.closed == old(conv.closed)
    ensures old(conv.closed) && fields != [] ==>
      r == Err(OSError) && conv.trace == old(conv.trace) && conv.incoming == old(conv.incoming)
    ensures (!old(conv.closed) || fields == []) && |fields| <= |old(conv.incoming)| ==>
      && r == Ok(Answers(fields, old(conv.incoming)[..|fields|]))
      && conv.trace == old(conv.trace) + Exchange(fields, old(conv.incoming)[..|fields|])
      && conv.incoming == old(conv.incoming)[|fields|..]
    ensures !old(conv.closed) && |fields| > |old(conv.incoming)| ==>
      && r == Err(conv.eofError)
      && conv.trace == old(conv.trace) + Abandoned(fields, old(conv.incoming))
      && conv.incoming == []
  {
    ghost var replies := conv.incoming;
    ghost var t0 := conv.trace;
    var userData: seq<(string, Json)> := [];
    var i := 0;
    while i < |fields|
      invariant i <= |fields| && i <= |replies|
      invariant userData == Answers(fields[..i], replies[..i])
      invariant conv.trace == t0 + Exchange(fields[..i], replies[..i])
      invariant conv.incoming == replies[i..] && conv.closed == old(conv.closed)
      invariant conv.closed ==> i == 0
    {
      var sent := conv.Send(Str(PromptText(fields[i])));
      if sent.Err? {
        return Err(sent.error);
      }
      var reply := conv.Receive();
      if reply.Err? {
        assert i == |replies| && replies[..i] == replies;
        PromptReply(fields[i]);
        return Err(reply.error);
      }
      PromptReply(fields[i]);
      AnswersSnoc(fields, replies, i);
      ExchangeStep(fields, replies, i);
      userData := Put(userData, fields[i], Str(reply.value));
      i := i + 1;
    }
    assert fields[..i] == fields;
    return Ok(userData);
  }

  /** `format_server_info(version, build_date)` */
  function FormatServerInfo(version: string, buildDate: string): (r: string)
    ensures |r| == |"version: "| + |version| + |", build: "| + |buildDate|
    ensures r[..9] == "version: " && r[9..9 + |version|] == version
    ensures r[9 + |version|..9 + |version| + 9] == ", build: " && r[18 + |version|..] == buildDate
  {
    "version: " + version + ", build: " + buildDate
  }
}
