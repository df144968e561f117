/**
 * The profile header (`account_timeline/components/account_header.tsx`): the page
 * title, the local/remote test behind the robots directive, the gating of the
 * header image, avatar and bio on a suspended or hidden account, and the guard of
 * the avatar click handler. Rendering itself is not modelled; a `HeaderView`
 * records which parts are shown and with which data.
 */
module AccountHeader {
  import opened Wrappers
  import opened Strings
  import opened Accounts
  import AccountName

  /**
   * The handle in the title: local accounts (acct equal to the username) get the
   * instance domain appended, so the handle reads back as that username and domain;
   * any other acct is used verbatim.
   */
  function TitleAcct(a: Account, localDomain: string): (r: string)
    ensures a.acct == a.username && '@' !in a.username && '@' !in localDomain ==>
      AccountName.SplitAcct(r, "") == AccountName.AcctParts(a.username, localDomain)
    ensures a.acct != a.username ==> r == a.acct
    ensures a.acct == a.username ==> |r| == |a.username| + 1 + |localDomain|
  {
    if a.acct != a.username then a.acct
    else if '@' in a.username || '@' in localDomain then a.username + "@" + localDomain
    else
      AccountName.SplitAcctRemote(a.username, localDomain, "");
      a.username + "@" + localDomain
  }

  /** The name in the title: the display name, untrimmed, unless it is blank. */
  function TitlePrefix(a: Account): (r: string)
    ensures AllJsWhitespace(a.displayName) ==> r == a.username
    ensures !AllJsWhitespace(a.displayName) ==> r == a.displayName
  {
    TrimEmptyIff(a.displayName);
    if |Trim(a.displayName)| == 0 then a.username else a.displayName
  }

  /**
   * `titleFromAccount`: the name, then ` (@`, the title handle and a closing
   * parenthesis.
   */
  function TitleFromAccount(a: Account, localDomain: string): (r: string)
    ensures var n := |TitlePrefix(a)|;
      |r| == n + |TitleAcct(a, localDomain)| + 4 && r[..n] == TitlePrefix(a) &&
      r[n..n + 3] == " (@" && r[n + 3..|r| - 1] == TitleAcct(a, localDomain) && r[|r| - 1] == ')'
  {
    var r := TitlePrefix(a) + " (@" + TitleAcct(a, localDomain) + ")";
    Slices(TitlePrefix(a), " (@", TitleAcct(a, localDomain), ")");
    r
  }

  /** The three slices of `p + m + t + c` that recover `p`, `m` and `t`. */
  lemma Slices(p: string, m: string, t: string, c: string)
    ensures var r := p + m + t + c;
      r[..|p|] == p && r[|p|..|p| + |m|] == m && r[|p| + |m|..|p| + |m| + |t|] == t
  {
  }

  /**
   * The title is `name (@user@domain)`, where `name` is the display name unless
   * that is blank, and `@user@domain` is exactly the handle the name block shows,
   * for a local account (whose acct is its username) and for a remote `user@domain`.
   */
  lemma TitleShowsDisplayedHandle(a: Account, localDomain: string)
    requires (a.acct == a.username && '@' !in a.acct) || (a.acct != a.username && |Split(a.acct, '@')| == 2)
    ensures TitleFromAccount(a, localDomain) ==
      TitlePrefix(a) + " (" + AccountName.Handle(AccountName.SplitAcct(a.acct, localDomain)) + ")"
  {
    var p := AccountName.SplitAcct(a.acct, localDomain);
    TitleAcctIsSplitHandle(a, localDomain);
    TitleConcat(TitlePrefix(a), p.username, p.domain);
  }

  lemma TitleConcat(prefix: string, u: string, d: string)
    ensures prefix + " (@" + (u + "@" + d) + ")" == prefix + " (" + ("@" + u + "@" + d) + ")"
  {
  }

  /** The title's handle is the split handle put back together. */
  lemma TitleAcctIsSplitHandle(a: Account, localDomain: string)
    requires (a.acct == a.username && '@' !in a.acct) || (a.acct != a.username && |Split(a.acct, '@')| == 2)
    ensures var p := AccountName.SplitAcct(a.acct, localDomain);
      TitleAcct(a, localDomain) == p.username + "@" + p.domain
  {
    if a.acct != a.username {
      var parts := Split(a.acct, '@');
      JoinSplit(a.acct, '@');
      assert Join(parts[1..], '@') == parts[1];
      assert a.acct == parts[0] + "@" + parts[1];
    }
  }

  /** `isLocal = !account.acct.includes('@')`. */
  predicate IsLocal(acct: string)
    ensures IsLocal(acct) <==> |Split(acct, '@')| == 1
  {
    SplitSingleIff(acct, '@');
    '@' !in acct
  }

  datatype Robots = All | NoIndex

  /** The robots meta tag: `all` only for a local account that has not opted out. */
  function RobotsFor(a: Account): (r: Robots)
    ensures r == All <==> '@' !in a.acct && !a.noindex
    ensures r == All <==> |Split(a.acct, '@')| == 1 && !a.noindex
  {
    if IsLocal(a.acct) && !a.noindex then All else NoIndex
  }

  /** `suspendedOrHidden = hidden || account.suspended`. */
  predicate SuspendedOrHidden(a: Account, hidden: bool)
    ensures !SuspendedOrHidden(a, hidden) <==> !hidden && !a.suspended
  {
    hidden || a.suspended
  }

  /**
   * `isMe = me && account.id === me`, with `me` absent for a signed-out viewer. It
   * agrees with the name block's `isSelf` except for an empty `me`, which is falsy.
   */
  predicate IsMe(me: Option<string>, a: Account)
    ensures IsMe(me, a) ==> AccountName.IsSelf(me, a.id)
    ensures AccountName.IsSelf(me, a.id) && a.id != "" ==> IsMe(me, a)
  {
    Truthy(me) && a.id == me.value
  }

  datatype Relationship = Relationship(requestedBy: bool)

  datatype HeaderView = HeaderView(
    memorialNote: bool,
    movedNote: bool,
    followRequestNote: bool,
    accountInfo: bool,
    headerImage: Option<string>,
    avatarAccount: Option<string>,
    familiarFollowers: bool,
    bio: bool,
    accountNote: bool,
    tabs: bool,
    title: string,
    robots: Robots)

  /** The `AccountHeader` component, as the parts it shows. */
  function RenderHeader(
    account: Option<Account>, hidden: bool, relationship: Option<Relationship>,
    me: Option<string>, autoPlayGif: bool, redesign: bool, hideTabs: bool, localDomain: string): (r: Option<HeaderView>)
    ensures r.None? <==> account.None?
  {
    match account
    case None => None
    case Some(a) =>
      var soh := SuspendedOrHidden(a, hidden);
      var isMe := IsMe(me, a);
      Some(HeaderView(
        memorialNote := !hidden && a.memorial,
        movedNote := !hidden && Truthy(a.moved),
        followRequestNote := !soh && !Truthy(a.moved) && relationship.Some? && relationship.value.requestedBy,
        accountInfo := me != Some(a.id) && relationship.Some? && !redesign,
        headerImage := if soh then None else Some(if autoPlayGif then a.header else a.headerStatic),
        avatarAccount := if soh then None else Some(a.id),
        familiarFollowers := !isMe && !soh,
        bio := !soh,
        accountNote := !soh && Truthy(me) && a.id != me.value,
        tabs := !hideTabs && !hidden,
        title := TitleFromAccount(a, localDomain),
        robots := RobotsFor(a)))
  }

  /**
   * A suspended or hidden account shows no header image, no bio block (so no note),
   * no familiar followers, no follow-request note, and an empty avatar; otherwise the
   * header image is the animated one exactly when GIFs autoplay, the avatar shows the
   * account, the bio block is present, familiar followers show unless it is the
   * viewer's own profile, the note shows to a signed-in viewer on someone else's
   * profile, and the follow-request note shows for a pending request to an account
   * that has not moved. Hiding alone removes the memorial and moved notes and the
   * tabs; the info badge shows off the viewer's own profile with a relationship in
   * the classic layout, whether or not the account is gated.
   */
  lemma SuspendedOrHiddenGating(
    a: Account, hidden: bool, relationship: Option<Relationship>,
    me: Option<string>, autoPlayGif: bool, redesign: bool, hideTabs: bool, localDomain: string)
    ensures var v := RenderHeader(Some(a), hidden, relationship, me, autoPlayGif, redesign, hideTabs, localDomain).value;
      (hidden || a.suspended ==>
        v.headerImage.None? && v.avatarAccount.None? && !v.bio && !v.accountNote &&
        !v.familiarFollowers && !v.followRequestNote) &&
      (!hidden && !a.suspended ==>
        v.headerImage == Some(if autoPlayGif then a.header else a.headerStatic) &&
        v.avatarAccount == Some(a.id) && v.bio &&
        (v.familiarFollowers <==> !IsMe(me, a)) &&
        (v.accountNote <==> me.Some? && me.value != "" && a.id != me.value) &&
        (v.followRequestNote <==> !Truthy(a.moved) && relationship.Some? && relationship.value.requestedBy)) &&
      (v.memorialNote <==> !hidden && a.memorial) &&
      (v.movedNote <==> !hidden && a.moved.Some? && a.moved.value != "") &&
      (v.tabs <==> !hideTabs && !hidden) &&
      (v.accountInfo <==> !AccountName.IsSelf(me, a.id) && relationship.Some? && !redesign) &&
      (v.robots == All <==> '@' !in a.acct && !a.noindex) &&
      v.title == TitleFromAccount(a, localDomain)
  {
  }

  datatype MouseEvent = MouseEvent(button: int, ctrlKey: bool, metaKey: bool)
  datatype ImageModal = ImageModal(modalType: string, src: string, alt: string)
  datatype AvatarClick = AvatarClick(preventDefault: bool, modal: Option<ImageModal>)

  /** `handleOpenAvatar`: a chain of early returns around `preventDefault` and `openModal`. */
  function HandleOpenAvatar(e: MouseEvent, account: Option<Account>): (r: AvatarClick)
    ensures r.preventDefault <==> e.button == 0 && !e.ctrlKey && !e.metaKey
    ensures r.modal.Some? <==> (e.button == 0 && !e.ctrlKey && !e.metaKey && account.Some?)
    ensures r.modal.Some? ==> r.modal.value == ImageModal("IMAGE", account.value.avatar, "")
  {
    if e.button != 0 || e.ctrlKey || e.metaKey then AvatarClick(false, None)
    else if account.None? then AvatarClick(true, None)
    else AvatarClick(true, Some(ImageModal("IMAGE", account.value.avatar, "")))
  }
}
