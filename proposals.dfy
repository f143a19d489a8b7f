/** The catalyst-proposal form: two text fields and a submit handler that
    refuses an empty field and clears both fields on success. */
module Proposals {

  datatype SubmitOutcome = MissingFields | Submitted

  class ProposalForm {
    var title: string
    var description: string

    constructor ()
      ensures title == "" && description == ""
    {
      title := "";
      description := "";
    }

    /** The title input's change handler. */
    method SetTitle(value: string)
      modifies this
      ensures title == value && description == old(description)
    {
      title := value;
    }

    /** The description input's change handler. */
    method SetDescription(value: string)
      modifies this
      ensures description == value && title == old(title)
    {
      description := value;
    }

    /** Submit: with an empty title or description the error outcome and no
        change; otherwise success and both fields cleared. Only the empty
        string fails the guard: text made of blanks counts as filled in. */
    method HandleSubmit() returns (outcome: SubmitOutcome)
      modifies this
      ensures outcome == Submitted <==> old(title) != "" && old(description) != ""
      ensures outcome == MissingFields ==> title == old(title) && description == old(description)
      ensures outcome == Submitted ==> title == "" && description == ""
    {
      if title == "" || description == "" {
        return MissingFields;
      }
      outcome := Submitted;
      title := "";
      description := "";
    }
  }
}
