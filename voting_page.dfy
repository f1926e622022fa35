/**
 * The name vote: three fixed options with fixed tallies, their rounded
 * shares, and the ballot's state (selection, email, error, voted).
 */
module VotingPage {
  import opened Wrappers
  import opened Lists
  import opened Email
  import opened Forms

  /** An option card; its description is display text and left out. */
  datatype NameOption = NameOption(name: string, votes: nat)

  const Options: seq<NameOption> :=
    [NameOption("Forkit", 64), NameOption("Detour", 38), NameOption("Slipnet", 27)]

  /** The names of the options, in display order. */
  function Names(options: seq<NameOption>): (r: seq<string>)
    ensures |r| == |options|
    ensures forall i :: 0 <= i < |options| ==> r[i] == options[i].name
  {
    Map(options, (o: NameOption) => o.name)
  }

  /** `reduce((sum, option) => sum + option.votes, 0)`. */
  function TotalVotes(options: seq<NameOption>): nat {
    if options == [] then 0 else options[0].votes + TotalVotes(options[1..])
  }

  /** Every option's tally is at most the total. */
  lemma {:induction false} VotesAtMostTotal(options: seq<NameOption>, i: nat)
    requires i < |options|
    ensures options[i].votes <= TotalVotes(options)
  {
    if i > 0 {
      VotesAtMostTotal(options[1..], i - 1);
    }
  }

  lemma TotalOfOptions()
    ensures TotalVotes(Options) == 129
  {
  }

  /** A positive factor can be cancelled from both sides of an inequality. */
  lemma CancelFactor(t: int, a: int, b: int)
    requires t > 0 && t * a <= t * b
    ensures a <= b
  {
    assert t * (b - a) >= 0;
  }

  /** Floor division by a positive divisor brackets the dividend. */
  lemma RoundingBounds(votes: nat, total: nat)
    requires total > 0
    ensures var q := (200 * votes + total) / (2 * total);
      2 * total * q - total <= 200 * votes < 2 * total * q + total &&
      (votes <= total ==> 0 <= q <= 100)
  {
    var n, d := 200 * votes + total, 2 * total;
    var q := n / d;
    assert d * q + n % d == n && 0 <= n % d < d;
    if votes <= total {
      assert total * (2 * q) <= total * 201;
      CancelFactor(total, 2 * q, 201);
    }
  }

  /**
   * `Math.round(votes / total * 100)` in exact arithmetic: the nearest
   * whole percent, halves rounded up.
   */
  function Percent(votes: nat, total: nat): (r: int)
    requires total > 0
    ensures 2 * total * r - total <= 200 * votes < 2 * total * r + total
    ensures votes <= total ==> 0 <= r <= 100
  {
    RoundingBounds(votes, total);
    (200 * votes + total) / (2 * total)
  }

  /** The shares shown next to the three options. */
  lemma ShownShares()
    ensures Percent(Options[0].votes, TotalVotes(Options)) == 50
    ensures Percent(Options[1].votes, TotalVotes(Options)) == 29
    ensures Percent(Options[2].votes, TotalVotes(Options)) == 21
  {
    TotalOfOptions();
  }

  /** The vote's email check: `!email || !pattern.test(email)`; the emptiness test adds nothing. */
  predicate EmailRejected(email: string) {
    email == "" || !TestEmail(email)
  }

  lemma EmailRejectedIff(email: string)
    ensures EmailRejected(email) <==> !EmailLike(email)
  {
    if email == "" {
      assert !MatchAt(email, 0, 0);
    }
  }

  /** A blank address gets the "invalid" message here, not a "required" one as on the forms. */
  lemma BlankAddressIsInvalid()
    ensures EmailRejected(" ")
    ensures EmailError(" ") == Some(EmailRequired)
  {
  }

  class Ballot {
    var selectedName: Option<string>
    var email: string
    var voted: bool
    /** The `errors.email` entry; it is the only key the page uses. */
    var emailError: Option<string>

    /**
     * A selection names an option; an error stands for the current address
     * failing the check; a vote was cast with a selection and a passing
     * address.
     */
    ghost predicate Valid()
      reads this
    {
      (selectedName.Some? ==> selectedName.value in Names(Options)) &&
      (emailError.Some? ==> emailError.value == EmailInvalid && !EmailLike(email)) &&
      (voted ==> selectedName.Some? && EmailLike(email))
    }

    constructor ()
      ensures selectedName == None && email == "" && !voted && emailError == None
      ensures Valid()
    {
      selectedName := None;
      email := "";
      voted := false;
      emailError := None;
    }

    /** A click on an option card or its radio button. */
    method Select(name: string)
      requires Valid() && !voted && name in Names(Options)
      modifies this
      ensures selectedName == Some(name)
      ensures email == old(email) && voted == old(voted) && emailError == old(emailError)
      ensures Valid()
    {
      selectedName := Some(name);
    }

    /** Typing in the email field: a shown error is cleared along with every other entry. */
    method EditEmail(value: string)
      requires Valid() && !voted
      modifies this
      ensures email == value && emailError == None
      ensures selectedName == old(selectedName) && voted == old(voted)
      ensures Valid()
    {
      email := value;
      if emailError.Some? && emailError.value != "" {
        emailError := None;
      }
    }

    /**
     * `handleVote`: a failing address sets the error and stops; without a
     * selection nothing happens; otherwise the vote is cast. Tallies never change.
     */
    method HandleVote()
      requires Valid() && !voted
      modifies this
      ensures !EmailLike(email) ==> emailError == Some(EmailInvalid) && !voted
      ensures EmailLike(email) ==> emailError == old(emailError) && (voted <==> selectedName.Some?)
      ensures email == old(email) && selectedName == old(selectedName)
      ensures Valid()
    {
      EmailRejectedIff(email);
      if EmailRejected(email) {
        emailError := Some(EmailInvalid);
        return;
      }
      if selectedName.None? {
        return;
      }
      voted := true;
    }

    /** "Back to the vote": the form again, with the same selection and address. */
    method Back()
      requires Valid() && voted
      modifies this
      ensures !voted
      ensures selectedName == old(selectedName) && email == old(email) && emailError == old(emailError)
      ensures Valid()
    {
      voted := false;
    }
  }

  /** Voting, going back and voting again casts the vote again without any error. */
  method VoteTwice(b: Ballot)
    requires b.Valid() && !b.voted && b.selectedName.Some? && EmailLike(b.email)
    modifies b
    ensures b.voted && b.emailError == None
  {
    b.HandleVote();
    b.Back();
    b.HandleVote();
  }
}
