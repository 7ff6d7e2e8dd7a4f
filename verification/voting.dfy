/** The WebSocket vote handler: look the poll up, bump the first matching option, save, broadcast. */
module Voting {
  import opened Results
  import opened Polls
  import opened ObjectIds

  /** The only text the handler ever sends back on a failed vote. */
  const ProcessingError: string := "Error processing vote"

  /**
   * Why a vote fell into the handler's catch block. The client cannot tell these apart:
   * each produces the same error reply.
   */
  datatype VoteError =
    | PollNotFound   // the id did not convert, or findById found nothing, so reading its options throws
    | NoSuchOption   // findIndex gave -1, so reading `votes` of a missing element throws
    | SaveFailed     // the store rejected the save

  /** A message received from a client, fields as sent. Absent or non-string fields are `None`. */
  datatype ClientMessage = ClientMessage(kind: string, pollId: Option<string>, option: Option<string>)

  /** A message sent by the server. */
  datatype ServerMessage =
    | PollUpdate(pollId: string, updatedPoll: Poll)
    | ErrorReply(message: string)

  /** Who receives the handler's message, if anyone. */
  datatype Delivery = NoReply | ToSender(msg: ServerMessage) | ToAllClients(msg: ServerMessage)

  /** The persistent poll collection, keyed by document id (24 lower-case hexadecimal digits). */
  type Store = map<PollId, Poll>

  /** The state after handling one message, and what was sent. */
  datatype Step = Step(store: Store, delivery: Delivery)

  /** `i` is the lowest position whose option text is `v`. */
  predicate IsFirstMatch(options: seq<PollOption>, v: string, i: int)
  {
    && 0 <= i < |options|
    && options[i].value == v
    && forall k :: 0 <= k < i ==> options[k].value != v
  }

  /**
   * `after` is `before` with one vote for `v` counted: only the first option whose text is `v`
   * gains exactly one vote; the option texts, their order and every other field are unchanged.
   */
  predicate Counted(before: Poll, v: string, after: Poll)
  {
    && after == before.(options := after.options)
    && Values(after.options) == Values(before.options)
    && (forall i :: 0 <= i < |before.options| ==>
          after.options[i].votes == before.options[i].votes + (if IsFirstMatch(before.options, v, i) then 1 else 0))
  }

  /** Array findIndex with strict equality against the submitted option: the first match, or -1. */
  function FindIndex(options: seq<PollOption>, option: Option<string>): (i: int)
    ensures -1 <= i < |options|
    ensures i == -1 <==> option.None? || forall k :: 0 <= k < |options| ==> options[k].value != option.value
    ensures i != -1 ==> option.Some? && IsFirstMatch(options, option.value, i)
  {
    if |options| == 0 then -1
    else if option == Some(options[0].value) then 0
    else
      var j := FindIndex(options[1..], option);
      if j == -1 then -1 else j + 1
  }

  /** Incrementing the tally at position `i` of the option list; an index outside the list throws. */
  function IncrementAt(options: seq<PollOption>, i: int): (r: Result<seq<PollOption>, VoteError>)
    ensures r.Ok? <==> 0 <= i < |options|
    ensures r.Err? ==> r.error == NoSuchOption
    ensures r.Ok? ==>
              && |r.value| == |options|
              && r.value[i] == PollOption(options[i].value, options[i].votes + 1)
              && forall k :: 0 <= k < |options| && k != i ==> r.value[k] == options[k]
  {
    if 0 <= i < |options| then Ok(options[i := options[i].(votes := options[i].votes + 1)])
    else Err(NoSuchOption)
  }

  /** A successful increment raises the poll's total tally by exactly one. */
  lemma IncrementAddsOne(options: seq<PollOption>, i: int)
    requires 0 <= i < |options|
    ensures Total(IncrementAt(options, i).value) == Total(options) + 1
  {
    TotalUpdate(options, i, IncrementAt(options, i).value[i]);
  }

  /** Counting a vote on a poll that was found. */
  function CountVote(p: Poll, option: Option<string>): (r: Result<Poll, VoteError>)
    ensures r.Ok? <==> option.Some? && option.value in Values(p.options)
    ensures r.Err? ==> r.error == NoSuchOption
    ensures r.Ok? ==> Counted(p, option.value, r.value)
  {
    var i := FindIndex(p.options, option);
    match IncrementAt(p.options, i)
    case Err(e) => Err(e)
    case Ok(opts) =>
      Ok(p.(options := opts))
  }

  /** The document key a sent id converts to, if it is present and converts. */
  function SentKey(id: Option<string>): (k: Option<PollId>)
    ensures k.Some? <==> id.Some? && Canon(id.value).Some?
    ensures k.Some? ==> IsObjectIdText(k.value) && SameObjectId(id.value, k.value)
  {
    if id.Some? then Canon(id.value) else None
  }

  /** `findById`: the sent id is converted to a document key and the poll under that key is returned. */
  function Lookup(store: Store, id: Option<string>): (r: Option<Poll>)
    ensures id.None? ==> r.None?
    ensures r.Some? <==> SentKey(id).Some? && SentKey(id).value in store
    ensures r.Some? ==> r.value == store[SentKey(id).value]
  {
    match SentKey(id)
    case Some(k) => if k in store then Some(store[k]) else None
    case None => None
  }

  /** A stored poll is found by its id written in any letter case, and by no other spelling. */
  lemma LookupFindsEveryCasing(store: Store, id: string, k: PollId)
    requires k in store && IsObjectIdText(k)
    ensures SameObjectId(id, k) <==> Lookup(store, Some(id)) == Some(store[k]) && SentKey(Some(id)) == Some(k)
  {
    CanonFindsEveryCasing(id, k);
  }

  /** The body of the handler's `try`, up to the save: a vote on the poll that was looked up. */
  function ApplyVote(found: Option<Poll>, option: Option<string>): (r: Result<Poll, VoteError>)
    ensures r.Ok? <==> found.Some? && option.Some? && option.value in Values(found.value.options)
    ensures found.None? ==> r == Err(PollNotFound)
    ensures found.Some? && r.Err? ==> r.error == NoSuchOption
    ensures r.Ok? ==> Counted(found.value, option.value, r.value)
  {
    match found
    case None => Err(PollNotFound)
    case Some(p) => CountVote(p, option)
  }

  /**
   * One incoming WebSocket message. `saveSucceeds` is the outcome of persisting the updated poll.
   * Only `vote` messages do anything; a counted and saved vote is broadcast to every client, any
   * failure is reported to the sender alone and leaves the store as it was.
   */
  function HandleMessage(store: Store, msg: ClientMessage, saveSucceeds: bool): (s: Step)
    ensures msg.kind != "vote" ==> s == Step(store, NoReply)
    ensures msg.kind == "vote" ==> !s.delivery.NoReply?
    ensures s.delivery.ToAllClients? <==>
      && msg.kind == "vote" && saveSucceeds
      && SentKey(msg.pollId).Some? && SentKey(msg.pollId).value in store
      && msg.option.Some? && msg.option.value in Values(store[SentKey(msg.pollId).value].options)
    ensures s.delivery.ToAllClients? ==>
      var k := SentKey(msg.pollId).value;
      && s.store.Keys == store.Keys
      && Counted(store[k], msg.option.value, s.store[k])
      && (forall other :: other in store && other != k ==> s.store[other] == store[other])
      && s.delivery.msg == PollUpdate(msg.pollId.value, s.store[k])
    ensures s.delivery.ToSender? ==> s == Step(store, ToSender(ErrorReply(ProcessingError)))
  {
    if msg.kind != "vote" then Step(store, NoReply)
    else
      match ApplyVote(Lookup(store, msg.pollId), msg.option)
      case Err(_) => Step(store, ToSender(ErrorReply(ProcessingError)))
      case Ok(updated) =>
        if !saveSucceeds then Step(store, ToSender(ErrorReply(ProcessingError)))
        else
          Step(store[SentKey(msg.pollId).value := updated], ToAllClients(PollUpdate(msg.pollId.value, updated)))
  }
}
