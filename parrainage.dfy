/**
 * The referral ("parrainage") form of the default landing page: three text fields, a
 * presence check, a simulated request and an automatic reset. Timers are counts of
 * scheduled, not yet fired timers, as in the guide modal.
 */
module Parrainage {
  import opened Text

  /** The three inputs: the sponsor's name and e-mail and the club proposed. */
  datatype ParrainageField = SponsorName | SponsorEmail | Club

  /**
   * `handleParrainageSubmit`'s gate: none of the three fields is blank, that is, each
   * has a character that is not whitespace; the handler does not check the e-mail's format.
   */
  predicate ParrainageAccepts(name: string, email: string, club: string)
    ensures ParrainageAccepts(name, email, club) <==> !AllSpace(name) && !AllSpace(email) && !AllSpace(club)
  {
    !IsBlank(name) && !IsBlank(email) && !IsBlank(club)
  }

  /** Any non-blank e-mail field passes the handler's gate, even one with no `@`. */
  lemma ParrainageTakesAnyEmail()
    ensures ParrainageAccepts("Jo", "jo", "Club")
  {
    assert !IsSpace("Jo"[0]) && !IsSpace("jo"[0]) && !IsSpace("Club"[0]);
  }

  class ParrainageForm {
    var parrainageName: string
    var parrainageEmail: string
    var parrainageClub: string
    var parrainageSubmitting: bool
    var parrainageSubmitted: bool
    var delayPending: nat
    var resetPending: nat

    /** Neither transient flag is on without a pending timer that turns it off. */
    ghost predicate Valid()
      reads this
    {
      (parrainageSubmitting ==> delayPending > 0) && (parrainageSubmitted ==> resetPending > 0)
    }

    constructor ()
      ensures Valid()
      ensures parrainageName == "" && parrainageEmail == "" && parrainageClub == ""
      ensures !parrainageSubmitting && !parrainageSubmitted && delayPending == 0 && resetPending == 0
    {
      parrainageName, parrainageEmail, parrainageClub := "", "", "";
      parrainageSubmitting, parrainageSubmitted := false, false;
      delayPending, resetPending := 0, 0;
    }

    /** An input's `onChange`: only that field changes. */
    method Edit(f: ParrainageField, value: string)
      requires Valid()
      modifies this`parrainageName, this`parrainageEmail, this`parrainageClub
      ensures Valid()
      ensures parrainageName == (if f == SponsorName then value else old(parrainageName))
      ensures parrainageEmail == (if f == SponsorEmail then value else old(parrainageEmail))
      ensures parrainageClub == (if f == Club then value else old(parrainageClub))
    {
      match f {
        case SponsorName => parrainageName := value;
        case SponsorEmail => parrainageEmail := value;
        case Club => parrainageClub := value;
      }
    }

    /**
     * `handleParrainageSubmit` up to its `await`: with a blank field nothing happens;
     * otherwise the form is pending and the simulated request is under way.
     */
    method Submit() returns (accepted: bool)
      requires Valid()
      modifies this`parrainageSubmitting, this`delayPending
      ensures Valid()
      ensures accepted <==> ParrainageAccepts(parrainageName, parrainageEmail, parrainageClub)
      ensures accepted ==> parrainageSubmitting && delayPending == old(delayPending) + 1
      ensures !accepted ==> parrainageSubmitting == old(parrainageSubmitting) && delayPending == old(delayPending)
    {
      if IsBlank(parrainageName) || IsBlank(parrainageEmail) || IsBlank(parrainageClub) {
        return false;
      }
      accepted := true;
      parrainageSubmitting := true;
      delayPending := delayPending + 1;
    }

    /** The simulated 1000 ms request ends: submitted, the 3000 ms reset scheduled, no longer pending. */
    method DelayTick()
      requires Valid()
      modifies this`delayPending, this`parrainageSubmitted, this`resetPending, this`parrainageSubmitting
      ensures Valid()
      ensures old(delayPending) > 0 ==>
        parrainageSubmitted && !parrainageSubmitting && delayPending == old(delayPending) - 1
        && resetPending == old(resetPending) + 1
      ensures old(delayPending) == 0 ==>
        parrainageSubmitted == old(parrainageSubmitted) && parrainageSubmitting == old(parrainageSubmitting)
        && delayPending == 0 && resetPending == old(resetPending)
    {
      if delayPending > 0 {
        delayPending := delayPending - 1;
        parrainageSubmitted := true;
        resetPending := resetPending + 1;
        parrainageSubmitting := false;
      }
    }

    /** The 3000 ms reset: all three fields emptied and the submitted flag cleared. */
    method ResetTick()
      requires Valid()
      modifies this
      ensures Valid()
      ensures old(resetPending) > 0 ==>
        parrainageName == "" && parrainageEmail == "" && parrainageClub == "" && !parrainageSubmitted
        && resetPending == old(resetPending) - 1
      ensures old(resetPending) == 0 ==>
        parrainageName == old(parrainageName) && parrainageEmail == old(parrainageEmail)
        && parrainageClub == old(parrainageClub) && parrainageSubmitted == old(parrainageSubmitted)
        && resetPending == 0
      ensures parrainageSubmitting == old(parrainageSubmitting) && delayPending == old(delayPending)
    {
      if resetPending > 0 {
        parrainageName := "";
        parrainageEmail := "";
        parrainageClub := "";
        parrainageSubmitted := false;
        resetPending := resetPending - 1;
      }
    }
  }
}
