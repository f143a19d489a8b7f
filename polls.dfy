/** The knowledge-poll board: fixed mock polls, a vote-once record of the
    polls already answered, the correct/incorrect verdict of a vote and the
    rounded percentage shown per option. */
module Polls {
  import opened Wrappers

  datatype PollOption = PollOption(text: string, votes: nat, correct: bool)

  datatype Poll = Poll(id: int, question: string, options: seq<PollOption>, totalVotes: nat)

  /** What a click on an option produces: nothing (already voted), or the
      "Correct" or "Incorrect" notification. */
  datatype VoteOutcome = AlreadyVoted | Correct | Incorrect

  const MOCK_POLLS: seq<Poll> := [
    Poll(1, "What is RevEmpire's maximum withdrawal limit percentage?", [
      PollOption("150% of deposits", 45, true),
      PollOption("100% of deposits", 23, false),
      PollOption("200% of deposits", 12, false),
      PollOption("Unlimited", 8, false)], 88),
    Poll(2, "How many referral commission levels does RevEmpire offer?", [
      PollOption("3 levels deep", 67, true),
      PollOption("1 level only", 15, false),
      PollOption("5 levels deep", 8, false),
      PollOption("2 levels deep", 5, false)], 95),
    Poll(3, "What is RevEmpire's main business model?", [
      PollOption("Traffic exchange with cashback advertising", 78, true),
      PollOption("Simple affiliate marketing", 34, false),
      PollOption("Social media platform", 12, false),
      PollOption("E-commerce marketplace", 19, false)], 143),
    Poll(4, "What prevents liquidity drainage in RevEmpire?", [
      PollOption("Maximum withdrawal limits and repurchase balance", 56, true),
      PollOption("High signup fees", 18, false),
      PollOption("Limited user access", 9, false),
      PollOption("Manual approval process", 7, false)], 90),
    Poll(5, "What does compound interest teach us about wealth building?", [
      PollOption("Time and consistency multiply returns exponentially", 89, true),
      PollOption("Only large investments matter", 23, false),
      PollOption("Quick gains are always better", 12, false),
      PollOption("Savings accounts are the best option", 8, false)], 132)
  ]

  /** `mockPolls.find(p => p.id === pollId)`. */
  function FindPoll(polls: seq<Poll>, id: int): Option<Poll>
  {
    FindFirst(polls, (p: Poll) => p.id == id)
  }

  /** `poll?.options[optionIndex]?.correct`: true only for an existing poll,
      an index inside its options, and an option flagged correct. */
  predicate IsCorrectVote(polls: seq<Poll>, pollId: int, optionIndex: int)
    ensures IsCorrectVote(polls, pollId, optionIndex) <==>
              exists k :: 0 <= k < |polls| && polls[k].id == pollId &&
                          (forall j :: 0 <= j < k ==> polls[j].id != pollId) &&
                          0 <= optionIndex < |polls[k].options| && polls[k].options[optionIndex].correct
  {
    match FindPoll(polls, pollId)
    case None => false
    case Some(poll) => 0 <= optionIndex < |poll.options| && poll.options[optionIndex].correct
  }

  /** Σ votes over the options. */
  function VoteSum(options: seq<PollOption>): int
  {
    if options == [] then 0 else options[0].votes + VoteSum(options[1..])
  }

  /** How many options are flagged correct. */
  function CorrectCount(options: seq<PollOption>): int
  {
    if options == [] then 0 else (if options[0].correct then 1 else 0) + CorrectCount(options[1..])
  }

  /** `totalVotes > 0 ? Math.round(votes / totalVotes * 100) : 0`: the
      nearest whole percentage, halves rounded up. */
  function Percentage(votes: nat, totalVotes: nat): (p: int)
    ensures totalVotes == 0 ==> p == 0
    ensures totalVotes > 0 ==> 2 * p * totalVotes - totalVotes <= 200 * votes < 2 * p * totalVotes + totalVotes
    ensures votes <= totalVotes ==> 0 <= p <= 100
  {
    if totalVotes > 0 then
      var q := (200 * votes + totalVotes) / (2 * totalVotes);
      DivBounds(200 * votes + totalVotes, 2 * totalVotes);
      assert votes <= totalVotes ==> q <= 100 by {
        if votes <= totalVotes && q > 100 {
          MulMonotone(2 * totalVotes, 101, q);
        }
      }
      q
    else 0
  }

  lemma DivBounds(a: int, b: int)
    requires a >= 0 && b > 0
    ensures b * (a / b) <= a < b * (a / b) + b
    ensures a / b >= 0
  {
  }

  lemma MulMonotone(b: int, x: int, y: int)
    requires b >= 0 && x <= y
    ensures b * x <= b * y
  {
  }

  /** The mock data is consistent: each poll's total is the sum of its
      options' votes and each poll has exactly one correct option. */
  lemma MockPollsConsistent()
    ensures forall i :: 0 <= i < |MOCK_POLLS| ==>
              MOCK_POLLS[i].totalVotes == VoteSum(MOCK_POLLS[i].options) &&
              CorrectCount(MOCK_POLLS[i].options) == 1
  {
    forall i | 0 <= i < |MOCK_POLLS|
      ensures MOCK_POLLS[i].totalVotes == VoteSum(MOCK_POLLS[i].options)
      ensures CorrectCount(MOCK_POLLS[i].options) == 1
    {
      var o := MOCK_POLLS[i].options;
      assert o[1..][1..][1..][1..] == [];
    }
  }

  /** In every mock poll the first option is the one flagged correct. */
  lemma MockFirstOptionCorrect(i: nat, optionIndex: int)
    requires i < |MOCK_POLLS|
    ensures 0 <= optionIndex < |MOCK_POLLS[i].options| && MOCK_POLLS[i].options[optionIndex].correct
            <==> optionIndex == 0
  {
    var o := MOCK_POLLS[i].options;
    assert |o| == 4 && o[0].correct && !o[1].correct && !o[2].correct && !o[3].correct;
  }

  /** On the mock board a vote on a listed poll is correct exactly when it
      picks the first option; a vote on any other poll id is incorrect. */
  lemma MockAnswerKey(pollId: int, optionIndex: int)
    ensures 1 <= pollId <= |MOCK_POLLS| ==> (IsCorrectVote(MOCK_POLLS, pollId, optionIndex) <==> optionIndex == 0)
    ensures !(1 <= pollId <= |MOCK_POLLS|) ==> !IsCorrectVote(MOCK_POLLS, pollId, optionIndex)
  {
    var ids := seq(|MOCK_POLLS|, k requires 0 <= k < |MOCK_POLLS| => MOCK_POLLS[k].id);
    assert ids == [1, 2, 3, 4, 5];
    if 1 <= pollId <= |MOCK_POLLS| {
      var k := pollId - 1;
      assert ids[k] == pollId;
      FindFirstAt(MOCK_POLLS, (p: Poll) => p.id == pollId, k);
      MockFirstOptionCorrect(k, optionIndex);
    } else {
      assert forall k :: 0 <= k < |MOCK_POLLS| ==> ids[k] != pollId;
    }
  }

  /** The board's record of which polls this visitor has answered. */
  class PollBoard {
    var votedPolls: set<int>

    constructor ()
      ensures votedPolls == {}
    {
      votedPolls := {};
    }

    /** A vote on a poll already answered changes nothing; any other vote
        marks that poll as answered (even for an unknown poll or an index
        outside its options) and is judged by the selected option's flag. */
    method HandleVote(pollId: int, optionIndex: int) returns (outcome: VoteOutcome)
      modifies this
      ensures old(votedPolls) <= votedPolls
      ensures pollId in old(votedPolls) ==> outcome == AlreadyVoted && votedPolls == old(votedPolls)
      ensures pollId !in old(votedPolls) ==>
                && votedPolls == old(votedPolls) + {pollId}
                && (outcome == Correct <==> IsCorrectVote(MOCK_POLLS, pollId, optionIndex))
                && (outcome == Incorrect <==> !IsCorrectVote(MOCK_POLLS, pollId, optionIndex))
    {
      if pollId in votedPolls {
        return AlreadyVoted;
      }
      votedPolls := votedPolls + {pollId};
      var poll := FindPoll(MOCK_POLLS, pollId);
      if poll.Some? && 0 <= optionIndex < |poll.value.options| && poll.value.options[optionIndex].correct {
        outcome := Correct;
      } else {
        outcome := Incorrect;
      }
    }
  }
}
