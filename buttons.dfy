/** The submit buttons of the liquidity pages, which share one caption rule. */
module Buttons {

  /** The caption of a submit button: the busy text while the page's own flag or the
      wallet library's loading flag is set, the idle text otherwise. */
  function Caption(inProgress: bool, loading: bool, busyText: string, idleText: string): (r: string)
    requires busyText != idleText
    ensures r == busyText <==> inProgress || loading
    ensures r == idleText <==> !inProgress && !loading
  {
    if inProgress || loading then busyText else idleText
  }
}
