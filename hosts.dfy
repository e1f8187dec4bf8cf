/** `ActivityHosts.connectHost`: which kind of host a page starts, from
    where its window sits. */
module Hosts {
  import opened Base
  import opened Messaging
  import opened WindowHost

  /** The three host implementations. */
  datatype HostKind = IframeHost | PopupHost | RedirectHost

  /** What `connectHost` reads of its window: the window itself, `top`,
      `opener` (with whether it is closed). */
  datatype HostWindow = HostWindow(self: WindowId, top: WindowId, opener: Option<WindowId>, openerClosed: bool)

  /** The host `connectHost` picks as written: an iframe host below the
      top window; at the top, a popup host for any open opener; otherwise
      a redirect host. */
  function ChooseHostAsWritten(w: HostWindow): (k: HostKind)
    ensures k == IframeHost <==> w.top != w.self
    ensures k == PopupHost <==> w.top == w.self && w.opener.Some? && !w.openerClosed
  {
    if w.top != w.self then IframeHost
    else if w.opener.Some? && !w.openerClosed then PopupHost
    else RedirectHost
  }

  /** `connectHost` as written: a popup host for a window that is its own
      opener throws from the constructor. */
  function ConnectHostAsWritten(w: HostWindow): (r: Result<HostKind>)
    ensures r.Err? <==> ChooseHostAsWritten(w) == PopupHost && !HasDistinctOpener(w.self, w.opener)
    ensures r.Err? ==> r.message == "No window.opener"
    ensures r.Ok? ==> r.value == ChooseHostAsWritten(w)
  {
    var k := ChooseHostAsWritten(w);
    if k == PopupHost && !HasDistinctOpener(w.self, w.opener) then Err("No window.opener") else Ok(k)
  }

  /** A top-level window whose opener is itself makes the written
      `connectHost` throw, where a redirect host is wanted. */
  lemma SelfOpenerThrows(self: WindowId)
    ensures var w := HostWindow(self, self, Some(self), false);
            ConnectHostAsWritten(w) == Err("No window.opener") && ChooseHost(w) == RedirectHost
  {
  }

  /** The host `connectHost` is meant to pick: a popup host only for an
      open opener other than the window itself. */
  function ChooseHost(w: HostWindow): (k: HostKind)
    ensures k == IframeHost <==> w.top != w.self
    ensures k == PopupHost <==> w.top == w.self && HasDistinctOpener(w.self, w.opener) && !w.openerClosed
    ensures k == RedirectHost <==>
              w.top == w.self && (w.opener.None? || w.opener == Some(w.self) || w.openerClosed)
  {
    if w.top != w.self then IframeHost
    else if HasDistinctOpener(w.self, w.opener) && !w.openerClosed then PopupHost
    else RedirectHost
  }

  /** The intended choice never hands a popup host a window its
      constructor refuses, and differs from the written one only there. */
  lemma ChooseHostConstructs(w: HostWindow)
    ensures ChooseHost(w) == PopupHost ==> HasDistinctOpener(w.self, w.opener)
    ensures ChooseHost(w) != ChooseHostAsWritten(w) <==>
              ChooseHostAsWritten(w) == PopupHost && !HasDistinctOpener(w.self, w.opener)
    ensures ConnectHostAsWritten(w).Ok? ==> ConnectHostAsWritten(w).value == ChooseHost(w)
  {
  }
}
