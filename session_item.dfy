/** The session item a prompt or a sub-command runs in. The session stack
    itself (clui-session) is not part of this model; a component only ever
    sends its item one of these two signals, and the model records them. */
module SessionItem {

  /** `item.next()` advances the session; `item.remove().next()` drops the
      item first. */
  datatype Signal = Next | RemoveThenNext

}
