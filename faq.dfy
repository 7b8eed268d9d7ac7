/** The FAQ accordion: at most one question open, toggled by clicking it. */
module Faq {
  import opened Wrappers

  /** The section lists eight questions. */
  const QuestionCount: nat := 8

  /** `openIndex === index ? null : index`. */
  function Toggled(open: Option<nat>, index: nat): (r: Option<nat>)
    ensures open == Some(index) ==> r == None
    ensures open != Some(index) ==> r == Some(index)
  {
    if open == Some(index) then None else Some(index)
  }

  /** Question `index` shows its answer. */
  predicate IsOpen(open: Option<nat>, index: nat)
  {
    open == Some(index)
  }

  /** No two questions are open at once. */
  lemma AtMostOneOpen(open: Option<nat>, i: nat, j: nat)
    requires IsOpen(open, i) && IsOpen(open, j)
    ensures i == j
  {
  }

  /**
   * Toggling a question twice restores whether it is open, and afterwards no
   * other question is open.
   */
  lemma ToggleTwice(open: Option<nat>, index: nat)
    ensures IsOpen(Toggled(Toggled(open, index), index), index) == IsOpen(open, index)
    ensures forall j :: j != index ==> !IsOpen(Toggled(Toggled(open, index), index), j)
  {
  }

  /** The component's `openIndex` state. */
  class Accordion {
    var openIndex: Option<nat>

    /** The open question, if any, is one of the listed ones. */
    predicate Valid()
      reads this
    {
      openIndex.Some? ==> openIndex.value < QuestionCount
    }

    /** The first question starts open. */
    constructor ()
      ensures openIndex == Some(0) && Valid()
    {
      openIndex := Some(0);
    }

    /** `toggleFAQ(index)`: close it if it is the open one, otherwise open it and close the other. */
    method Toggle(index: nat)
      requires Valid() && index < QuestionCount
      modifies this
      ensures Valid()
      ensures openIndex == Toggled(old(openIndex), index)
      ensures IsOpen(old(openIndex), index) ==> forall j :: !IsOpen(openIndex, j)
      ensures !IsOpen(old(openIndex), index) ==> IsOpen(openIndex, index) && forall j :: j != index ==> !IsOpen(openIndex, j)
    {
      openIndex := Toggled(openIndex, index);
    }
  }
}
