/**
 * The registration provider's state: whether the registration modal is open and
 * which contest, if any, it was opened for.
 */
module ModalContext {
  import opened Wrappers
  import opened Types

  class RegistrationContext {
    var isModalOpen: bool
    var selectedContest: Option<Contest>

    /** The modal starts closed, with no contest selected. */
    constructor()
      ensures !isModalOpen && selectedContest == None
    {
      isModalOpen := false;
      selectedContest := None;
    }

    /**
     * `openModal(contest?)`: opens the modal for the given contest, or for none when
     * called without one. Every member of the enumeration is a non-empty string, so
     * `contest || null` keeps any contest that is passed.
     */
    method OpenModal(contest: Option<Contest>)
      modifies this
      ensures isModalOpen && selectedContest == contest
    {
      selectedContest := contest;
      isModalOpen := true;
    }

    /** `closeModal`: closes the modal and forgets the contest, from any state. */
    method CloseModal()
      modifies this
      ensures !isModalOpen && selectedContest == None
    {
      isModalOpen := false;
      selectedContest := None;
    }
  }
}
