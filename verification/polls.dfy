/** The poll record stored by the application and the construction of a new poll. */
module Polls {
  import opened Results

  /** A user's document id; the model only compares it. */
  type UserId = string
  /** A poll's document key, the ObjectId as 24 lower-case hexadecimal digits. */
  type PollId = string
  /** The creation time, supplied by the host clock. */
  type Timestamp = int

  /** One answer of a poll with its running tally. */
  datatype PollOption = PollOption(value: string, votes: nat)

  /** A stored poll. `voters` is part of the stored record but no operation reads or writes it. */
  datatype Poll = Poll(
    question: string,
    options: seq<PollOption>,
    createdAt: Timestamp,
    createdBy: UserId,
    voters: seq<UserId>)

  /** The option texts of a poll, in display order. */
  function Values(options: seq<PollOption>): (vs: seq<string>)
    ensures |vs| == |options|
    ensures forall i :: 0 <= i < |options| ==> vs[i] == options[i].value
  {
    if |options| == 0 then [] else [options[0].value] + Values(options[1..])
  }

  /** The sum of all option tallies. */
  function Total(options: seq<PollOption>): nat
  {
    if |options| == 0 then 0 else options[0].votes + Total(options[1..])
  }

  /** Replacing one option changes the total by the difference of the two tallies. */
  lemma {:induction false} TotalUpdate(options: seq<PollOption>, i: nat, o: PollOption)
    requires i < |options|
    ensures Total(options[i := o]) + options[i].votes == Total(options) + o.votes
  {
    if i == 0 {
      assert options[i := o][1..] == options[1..];
    } else {
      TotalUpdate(options[1..], i - 1, o);
      assert options[i := o][1..] == options[1..][i - 1 := o];
    }
  }

  /** Every submitted option text becomes a fresh option with no votes, in submission order. */
  function NewOptions(choices: seq<string>): (opts: seq<PollOption>)
    ensures |opts| == |choices|
    ensures forall i :: 0 <= i < |choices| ==> opts[i] == PollOption(choices[i], 0)
    ensures Total(opts) == 0
  {
    if |choices| == 0 then []
    else [PollOption(choices[0], 0)] + NewOptions(choices[1..])
  }

  /** The poll document built by the create-poll handler for a logged-in user. */
  function CreatePoll(question: string, choices: seq<string>, creator: UserId, now: Timestamp): (p: Poll)
    ensures p.question == question
    ensures p.createdBy == creator
    ensures p.createdAt == now
    ensures p.voters == []
    ensures Values(p.options) == choices
    ensures forall i :: 0 <= i < |p.options| ==> p.options[i].votes == 0
    ensures Total(p.options) == 0
  {
    var opts := NewOptions(choices);
    assert Values(opts) == choices;
    Poll(question, opts, now, creator, [])
  }

  /** What the create-poll request produces: a redirect to the login page, or a poll to be saved. */
  datatype CreateOutcome = RedirectToLogin | Created(poll: Poll)

  /** The create-poll handler: a request without a session user is sent to the login page. */
  function HandleCreatePoll(sessionUser: Option<UserId>, question: string, choices: seq<string>, now: Timestamp): (r: CreateOutcome)
    ensures r.RedirectToLogin? <==> sessionUser.None?
    ensures r.Created? ==>
              && r.poll.createdBy == sessionUser.value
              && r.poll.createdAt == now
              && r.poll.voters == []
              && r.poll.question == question
              && Values(r.poll.options) == choices
              && Total(r.poll.options) == 0
  {
    match sessionUser
    case None => RedirectToLogin
    case Some(user) => Created(CreatePoll(question, choices, user, now))
  }
}
