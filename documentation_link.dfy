/**
  The documentation page table: every constant names a page below the
  documentation site, and its link is the site's base URL followed by
  the page.
*/
module DocumentationLinks {

  /** The base URL every documentation link starts with. */
  const DocsBase: string := "https://docs.xpipe.io/"

  datatype DocumentationLink =
    | Index
    | Tty
    | WindowsSsh
    | MacosSetup
    | SshAgent
    | DoublePrompt
    | LicenseActivation
    | Privacy
    | Eula
    | WebtopUpdate
    | Sync
    | Scripting
    | KeepassXc
    | Ssh

  /** The page of each constant, as declared in the enum; only the index page is empty. */
  function Page(d: DocumentationLink): (r: string)
    ensures r == "" <==> d == Index
  {
    match d
    case Index => ""
    case Tty => "troubleshoot/tty"
    case WindowsSsh => "troubleshoot/windows-ssh"
    case MacosSetup => "guide/installation#macos"
    case SshAgent => "troubleshoot/ssh-agent-socket"
    case DoublePrompt => "troubleshoot/two-step-connections"
    case LicenseActivation => "troubleshoot/license-activation"
    case Privacy => "legal/privacy"
    case Eula => "legal/eula"
    case WebtopUpdate => "guide/webtop#updating"
    case Sync => "guide/sync"
    case Scripting => "guide/scripting"
    case KeepassXc => "guide/keepassxc"
    case Ssh => "guide/ssh"
  }

  /** The full URL of a page: it starts with the base and what follows the base is the page. */
  function GetLink(d: DocumentationLink): (r: string)
    ensures |DocsBase| <= |r| && r[..|DocsBase|] == DocsBase
    ensures r[|DocsBase|..] == Page(d)
  {
    DocsBase + Page(d)
  }

  /** The index page's link is the bare base URL. */
  lemma IndexLinkIsBase()
    ensures GetLink(Index) == DocsBase
  {
  }

  /** No two constants share a page. */
  lemma PagesDistinct(a: DocumentationLink, b: DocumentationLink)
    requires a != b
    ensures Page(a) != Page(b)
  {
  }

  /** Distinct constants therefore have distinct links. */
  lemma LinksDistinct(a: DocumentationLink, b: DocumentationLink)
    requires a != b
    ensures GetLink(a) != GetLink(b)
  {
  }

  /**
    The browser launcher: it receives the URL to open. Launching the
    process is outside the model; the launcher only records what it was
    asked to open.
  */
  class Hyperlinks {
    ghost var launched: seq<string>

    constructor ()
      ensures launched == []
    {
      launched := [];
    }

    method Open(uri: string)
      modifies this
      ensures launched == old(launched) + [uri]
    {
      launched := launched + [uri];
    }
  }

  /** Opening a constant hands its link, and nothing else, to the launcher. */
  method OpenLink(d: DocumentationLink, browser: Hyperlinks)
    modifies browser
    ensures browser.launched == old(browser.launched) + [GetLink(d)]
  {
    browser.Open(DocsBase + Page(d));
  }
}
