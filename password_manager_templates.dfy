/**
  The built-in password manager command templates. Each template is a
  shell command in which `$KEY` stands for the key of the secret to
  retrieve. The list offered to the user keeps the declared order and
  drops every template that is not selectable on the local system.
*/
module PasswordManagerTemplates {

  /** The local operating system, which two of the templates depend on. */
  datatype OsType = Windows | Linux | MacOs

  datatype PasswordManager = OnePassword | Bitwarden | Dashlane | LastPass | Keeper | MacosKeychain

  /** The placeholder every template contains. */
  const KeyPlaceholder: string := "$KEY"

  function Template(p: PasswordManager, os: OsType): string
  {
    match p
    case Bitwarden => "bw get password " + KeyPlaceholder + " --nointeraction --raw"
    case OnePassword => "op read " + KeyPlaceholder + " --force"
    case Dashlane => "dcli password --output console " + KeyPlaceholder
    case LastPass => "lpass show --password " + KeyPlaceholder
    case MacosKeychain => "security find-generic-password -w -l " + KeyPlaceholder
    case Keeper => KeeperExecutable(os) + KeeperArguments
  }

  /** The Keeper command is invoked as `@keeper` on Windows and as `keeper` elsewhere. */
  function KeeperExecutable(os: OsType): string
  {
    if os == Windows then "@keeper" else "keeper"
  }

  const KeeperArguments: string := " get " + KeyPlaceholder + " --format password --unmask"

  function DocsLink(p: PasswordManager): string
  {
    match p
    case Bitwarden => "https://bitwarden.com/help/cli/#get"
    case OnePassword => "https://developer.1password.com/docs/cli/reference/commands/read"
    case Dashlane => "https://cli.dashlane.com/personal/vault"
    case LastPass => "https://askubuntu.com/questions/872842/how-does-one-basically-use-lastpass-cli"
    case MacosKeychain => "https://scriptingosx.com/2021/04/get-password-from-keychain-in-shell-scripts/"
    case Keeper => "https://docs.keeper.io/en/secrets-manager/commander-cli/command-reference/record-commands#get-command"
  }

  function Id(p: PasswordManager): string
  {
    match p
    case Bitwarden => "bitwarden"
    case OnePassword => "1password"
    case Dashlane => "dashlane"
    case LastPass => "lastpass"
    case MacosKeychain => "macosKeychain"
    case Keeper => "keeper"
  }

  /** Only the macOS keychain overrides selectability; every other template is always selectable. */
  predicate IsSelectable(p: PasswordManager, os: OsType)
  {
    p != MacosKeychain || os == MacOs
  }

  /** The order in which the templates are listed before filtering. */
  const DeclaredOrder: seq<PasswordManager> := [OnePassword, Bitwarden, Dashlane, LastPass, Keeper, MacosKeychain]

  /**
    The selectable members of `s`, in the order of `s`: a template is kept
    exactly when it is selectable. `SelectableDistributes` shows that order
    and repetitions are kept.
  */
  function SelectableOnly(s: seq<PasswordManager>, os: OsType): (r: seq<PasswordManager>)
    ensures forall p :: p in r <==> p in s && IsSelectable(p, os)
    ensures |r| <= |s|
  {
    if s == [] then []
    else if IsSelectable(s[0], os) then [s[0]] + SelectableOnly(s[1..], os)
    else SelectableOnly(s[1..], os)
  }

  /** Filtering a concatenation filters each part and keeps them in order. */
  lemma {:induction false} SelectableDistributes(s: seq<PasswordManager>, t: seq<PasswordManager>, os: OsType)
    ensures SelectableOnly(s + t, os) == SelectableOnly(s, os) + SelectableOnly(t, os)
  {
    if s == [] {
      assert s + t == t;
    } else {
      assert (s + t)[0] == s[0];
      assert (s + t)[1..] == s[1..] + t;
      SelectableDistributes(s[1..], t, os);
    }
  }

  /** Filtering keeps a list whose members are all selectable unchanged. */
  lemma {:induction false} KeepsAllSelectable(s: seq<PasswordManager>, os: OsType)
    requires forall i :: 0 <= i < |s| ==> IsSelectable(s[i], os)
    ensures SelectableOnly(s, os) == s
  {
    if s != [] {
      KeepsAllSelectable(s[1..], os);
    }
  }

  /** Filtering drops a last element that is not selectable. */
  lemma {:induction false} DropsUnselectableSuffix(s: seq<PasswordManager>, p: PasswordManager, os: OsType)
    requires !IsSelectable(p, os)
    ensures SelectableOnly(s + [p], os) == SelectableOnly(s, os)
  {
    if s == [] {
      assert [p][1..] == [];
    } else {
      assert (s + [p])[1..] == s[1..] + [p];
      DropsUnselectableSuffix(s[1..], p, os);
    }
  }

  /** The list of templates offered on the local system: every selectable template, and only those. */
  function All(os: OsType): (r: seq<PasswordManager>)
    ensures forall p :: p in r <==> IsSelectable(p, os)
  {
    SelectableOnly(DeclaredOrder, os)
  }

  /** Every offered template is selectable. */
  lemma AllSelectable(os: OsType, p: PasswordManager)
    requires p in All(os)
    ensures IsSelectable(p, os)
  {
  }

  /** On macOS nothing is dropped. */
  lemma AllOnMacOs()
    ensures All(MacOs) == DeclaredOrder
  {
    KeepsAllSelectable(DeclaredOrder, MacOs);
  }

  /** Elsewhere only the macOS keychain is dropped, and the rest keep their order. */
  lemma AllElsewhere(os: OsType)
    requires os != MacOs
    ensures All(os) == [OnePassword, Bitwarden, Dashlane, LastPass, Keeper]
  {
    var kept := [OnePassword, Bitwarden, Dashlane, LastPass, Keeper];
    assert DeclaredOrder == kept + [MacosKeychain];
    KeepsAllSelectable(kept, os);
    DropsUnselectableSuffix(kept, MacosKeychain, os);
  }

  /** The macOS keychain is offered exactly on macOS. */
  lemma MacosKeychainOfferedIff(os: OsType)
    ensures MacosKeychain in All(os) <==> os == MacOs
  {
  }

  /** `t` occurs in `s` starting at position `i`. */
  ghost predicate OccursAt(s: string, t: string, i: nat)
  {
    i + |t| <= |s| && s[i..i + |t|] == t
  }

  /** `s` contains `t` as a contiguous part. */
  ghost predicate Contains(s: string, t: string)
  {
    exists i: nat :: OccursAt(s, t, i)
  }

  /** Every template, on every system, contains the `$KEY` placeholder. */
  lemma {:induction false} TemplateHasPlaceholder(p: PasswordManager, os: OsType)
    ensures Contains(Template(p, os), KeyPlaceholder)
  {
    match p
    case Bitwarden => assert OccursAt(Template(p, os), KeyPlaceholder, 16);
    case OnePassword => assert OccursAt(Template(p, os), KeyPlaceholder, 8);
    case Dashlane => assert OccursAt(Template(p, os), KeyPlaceholder, 31);
    case LastPass => assert OccursAt(Template(p, os), KeyPlaceholder, 22);
    case MacosKeychain => assert OccursAt(Template(p, os), KeyPlaceholder, 37);
    case Keeper =>
      var exe := KeeperExecutable(os);
      assert OccursAt(Template(p, os), KeyPlaceholder, |exe| + 5);
  }

  /** The Keeper template: the OS-dependent executable, then the same arguments everywhere. */
  lemma KeeperTemplateShape(os: OsType)
    ensures os == Windows ==> Template(Keeper, os) == "@keeper" + KeeperArguments
    ensures os != Windows ==> Template(Keeper, os) == "keeper" + KeeperArguments
  {
  }

  /** The ids identify the templates: no two share one. */
  lemma {:induction false} IdsDistinct(a: PasswordManager, b: PasswordManager)
    requires a != b
    ensures Id(a) != Id(b)
  {
    assert Id(a)[0] != Id(b)[0];
  }
}
