/** The webview panel as the router sees it: the page it shows, the messages posted to it, how
    often it was revealed, and which message handler it was given when it was created. */
module Webview {
  import opened Wrappers

  /** The iframe route the router chooses. The iframe page itself does not take it. */
  datatype Route = Traffic | Setup

  /** What the panel shows, with the chosen route: the start page with its optional message, or
      the iframe onto the server. */
  datatype View = StartView(message: Option<string>) | FrameView(route: Route)

  /** `panel.webview.html` as far as it can be told apart: nothing yet, the start page with its
      message (`getStartServerHtml`), or the iframe page (`getMcpSharkIframeHtml`). */
  datatype Page = Blank | StartPage(message: Option<string>) | Iframe

  function PageOf(v: View): Page {
    match v
    case StartView(m) => StartPage(m)
    case FrameView(_) => Iframe
  }

  /** The two message handlers a new panel can be given. */
  datatype Mode = StartMode | IframeMode

  /** A message posted to the webview. */
  datatype Posted =
    | StatusUpdate(running: bool)
    | AnalysisResult(result: Option<string>, error: Option<string>)

  class Panel {
    var page: Page
    /** Every view assigned so far, oldest first; `page` shows the last one. */
    ghost var shown: seq<View>
    var posted: seq<Posted>
    var revealCount: nat
    /** The handler registered with `onDidReceiveMessage`, if any. */
    var mode: Option<Mode>

    /** `createWebviewPanel`: a blank panel without a handler. */
    constructor ()
      ensures page == Blank && shown == [] && posted == [] && revealCount == 0 && mode == None
    {
      page := Blank;
      shown := [];
      posted := [];
      revealCount := 0;
      mode := None;
    }

    /** Assigning `webview.html`. */
    method Show(v: View)
      modifies this`page, this`shown
      ensures page == PageOf(v) && shown == old(shown) + [v]
    {
      page := PageOf(v);
      shown := shown + [v];
    }

    method Post(m: Posted)
      modifies this`posted
      ensures posted == old(posted) + [m]
    {
      posted := posted + [m];
    }

    method Reveal()
      modifies this`revealCount
      ensures revealCount == old(revealCount) + 1
    {
      revealCount := revealCount + 1;
    }

    method Listen(m: Mode)
      modifies this`mode
      ensures mode == Some(m)
    {
      mode := Some(m);
    }
  }
}
