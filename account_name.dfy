/**
 * The profile name block (`account_timeline/components/account_name.tsx`): the
 * handle is split into a username and a domain, with the instance's own domain as
 * the default, and shown either as `@user` plus an invisible `@domain` (classic
 * layout) or as `@user@domain` (redesigned layout).
 */
module AccountName {
  import opened Wrappers
  import opened Strings
  import opened Accounts

  datatype AcctParts = AcctParts(username: string, domain: string)

  /**
   * `const [username = '', domain = localDomain] = acct.split('@')`. The username
   * default never applies, because `split` always yields at least one piece; the
   * domain default applies only when there is no second piece.
   */
  function SplitAcct(acct: string, localDomain: string): (r: AcctParts)
    ensures '@' !in r.username
    ensures '@' !in acct ==> r == AcctParts(acct, localDomain)
    ensures '@' in acct ==> '@' !in r.domain
    ensures '@' in acct ==>
      var n := |r.username| + 1 + |r.domain|;
      n <= |acct| && acct[..n] == r.username + "@" + r.domain && (n == |acct| || acct[n] == '@')
  {
    var parts := Split(acct, '@');
    SplitSingleIff(acct, '@');
    JoinSplit(acct, '@');
    if |parts| >= 2 then
      JoinPrefix(parts, '@');
      AcctParts(parts[0], parts[1])
    else
      AcctParts(parts[0], localDomain)
  }

  /** The first two pieces of a join, and what follows them. */
  lemma JoinPrefix(parts: seq<string>, sep: char)
    requires |parts| >= 2
    ensures var n := |parts[0]| + 1 + |parts[1]|;
      var j := Join(parts, sep);
      n <= |j| && j[..n] == parts[0] + [sep] + parts[1] && (n == |j| || j[n] == sep)
  {
  }

  /** A remote handle `user@domain` splits into its two halves. */
  lemma SplitAcctRemote(u: string, d: string, localDomain: string)
    requires '@' !in u && '@' !in d
    ensures SplitAcct(u + "@" + d, localDomain) == AcctParts(u, d)
  {
    SplitConcat(u, '@', d);
    SplitSingleIff(d, '@');
  }

  /** A trailing `@` gives an empty domain, not the local one. */
  lemma SplitAcctTrailingAt(u: string, localDomain: string)
    requires '@' !in u
    ensures SplitAcct(u + "@", localDomain) == AcctParts(u, "")
  {
    SplitAcctRemote(u, "", localDomain);
    assert u + "@" + "" == u + "@";
  }

  /** Everything after a second `@` is dropped. */
  lemma SplitAcctDropsRest(u: string, d: string, rest: string, localDomain: string)
    requires '@' !in u && '@' !in d
    ensures SplitAcct(u + "@" + d + "@" + rest, localDomain) == AcctParts(u, d)
  {
    SplitConcat(u, '@', d + "@" + rest);
    SplitConcat(d, '@', rest);
    assert u + "@" + d + "@" + rest == u + ['@'] + (d + ['@'] + rest);
  }

  /** The handle shown by the redesigned layout: `@`, then the username and domain joined by `@`. */
  function Handle(p: AcctParts): (r: string)
    ensures |r| == |p.username| + |p.domain| + 2
    ensures r[0] == '@' && r[1..] == p.username + "@" + p.domain
  {
    "@" + p.username + "@" + p.domain
  }

  /**
   * Reading the displayed handle back (without its leading `@`) gives the same
   * username and domain, whatever the default domain: the display loses nothing
   * of what the split kept.
   */
  lemma HandleRoundTrip(acct: string, localDomain: string, otherDefault: string)
    requires '@' !in localDomain
    ensures var p := SplitAcct(acct, localDomain);
      SplitAcct(Handle(p)[1..], otherDefault) == p
  {
    var p := SplitAcct(acct, localDomain);
    assert Handle(p)[1..] == p.username + "@" + p.domain;
    SplitAcctRemote(p.username, p.domain, otherDefault);
  }

  /** The domain pill receives the split handle and whether the viewer owns the account. */
  datatype DomainPill = DomainPill(username: string, domain: string, isSelf: bool)

  datatype NameView =
    | Classic(visibleHandle: string, invisibleDomain: string, pill: DomainPill, lockIcon: bool)
    | Redesign(handle: string, pill: DomainPill)

  /** `isSelf={me === account.id}`; `me` is absent for a signed-out viewer. */
  predicate IsSelf(me: Option<string>, id: string)
    ensures IsSelf(me, id) <==> me.Some? && me.value == id
  {
    me == Some(id)
  }

  /** The `AccountName` component: nothing without an account, else one of the two layouts. */
  function RenderAccountName(account: Option<Account>, me: Option<string>, localDomain: string, redesign: bool): (r: Option<NameView>)
    ensures r.None? <==> account.None?
    ensures r.Some? ==> r.value.Redesign? == redesign
    ensures r.Some? ==>
      var p := SplitAcct(account.value.acct, localDomain);
      r.value.pill == DomainPill(p.username, p.domain, me.Some? && me.value == account.value.id)
    ensures r.Some? && redesign ==>
      r.value.handle == Handle(SplitAcct(account.value.acct, localDomain))
    ensures r.Some? && !redesign ==>
      var p := SplitAcct(account.value.acct, localDomain);
      r.value.visibleHandle == "@" + p.username && r.value.invisibleDomain == "@" + p.domain &&
      r.value.lockIcon == account.value.locked
  {
    match account
    case None => None
    case Some(a) =>
      var p := SplitAcct(a.acct, localDomain);
      var pill := DomainPill(p.username, p.domain, IsSelf(me, a.id));
      if !redesign then Some(Classic("@" + p.username, "@" + p.domain, pill, a.locked))
      else Some(Redesign(Handle(p), pill))
  }

  /**
   * Both layouts show the same text: the classic one's visible `@user` followed by
   * its invisible `@domain` is the redesigned handle.
   */
  lemma LayoutsShowSameHandle(a: Account, me: Option<string>, localDomain: string)
    ensures var c := RenderAccountName(Some(a), me, localDomain, false).value;
      var d := RenderAccountName(Some(a), me, localDomain, true).value;
      c.visibleHandle + c.invisibleDomain == d.handle && c.pill == d.pill
  {
  }
}
