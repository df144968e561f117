/**
 * The follower/following list column (`followers/components/list.tsx`): the child
 * rows (the list's ids mapped to account rows, then an optional "prepended"
 * account unshifted in front), the forced empty state for a blocked, hidden or
 * suspended account, the `hasMore`/`isLoading` defaults, and the routing on a
 * null, undefined or unknown account id. The visibility hook and the account
 * lookup are parameters.
 */
module FollowerList {
  import opened Wrappers
  import opened Strings
  import opened Accounts
  import AccountName

  datatype AccountList = AccountList(hasMore: bool, isLoading: bool, items: seq<string>)

  /** An `<Account>` row; `minimal` marks the prepended one. */
  datatype Child = Child(id: string, minimal: bool)

  /** `accountId?: string | null`: `null` means no such account, `undefined` still loading. */
  datatype AccountIdArg = Null | Undefined | Id(value: string)

  /** What `useAccountVisibility` reports. */
  datatype Visibility = Visibility(blockedBy: bool, hidden: bool, suspended: bool)

  /** `forceEmptyState`: the list is emptied when the viewer is blocked or the account hidden or suspended. */
  predicate ForceEmptyState(v: Visibility)
    ensures !ForceEmptyState(v) <==> !v.blockedBy && !v.hidden && !v.suspended
  {
    v.blockedBy || v.hidden || v.suspended
  }

  /** The items of the list, or none when the list is absent (`list?.items ... ?? []`). */
  function Items(list: Option<AccountList>): seq<string>
  {
    if list.Some? then list.value.items else []
  }

  /**
   * The rows the column must show: none when the empty state is forced; otherwise
   * the prepended account (when its id is truthy) as a minimal row, then one row
   * per list item, in list order.
   */
  predicate IsChildList(children: seq<Child>, force: bool, list: Option<AccountList>, prepend: Option<string>)
    ensures IsChildList(children, force, list, prepend) ==>
      forall k :: 0 <= k < |children| ==> (children[k].minimal <==> k == 0 && Truthy(prepend))
  {
    var items := Items(list);
    var off := if Truthy(prepend) then 1 else 0;
    if force then children == []
    else
      |children| == |items| + off &&
      (Truthy(prepend) ==> children[0] == Child(prepend.value, true)) &&
      forall k :: off <= k < |children| ==> children[k] == Child(items[k - off], false)
  }

  /** The description above fixes the rows completely. */
  lemma ChildListUnique(c1: seq<Child>, c2: seq<Child>, force: bool, list: Option<AccountList>, prepend: Option<string>)
    requires IsChildList(c1, force, list, prepend) && IsChildList(c2, force, list, prepend)
    ensures c1 == c2
  {
    if !force {
      var items := Items(list);
      var off := if Truthy(prepend) then 1 else 0;
      forall j | 0 <= j < |c1| ensures c1[j] == c2[j] {
        if j >= off {
          assert c1[(j - off) + off] == Child(items[j - off], false);
        }
      }
    }
  }

  /** The `children` memo: `map` over the items, then `unshift` of the prepended row. */
  method BuildChildren(force: bool, list: Option<AccountList>, prepend: Option<string>) returns (children: seq<Child>)
    ensures IsChildList(children, force, list, prepend)
  {
    if force {
      return [];
    }
    var items := Items(list);
    children := [];
    var i := 0;
    while i < |items|
      invariant 0 <= i <= |items|
      invariant |children| == i
      invariant forall k :: 0 <= k < i ==> children[k] == Child(items[k], false)
    {
      children := children + [Child(items[i], false)];
      i := i + 1;
    }
    if Truthy(prepend) {
      children := [Child(prepend.value, true)] + children;
    }
  }

  /**
   * `hasMore={!forceEmptyState && list?.hasMore}`: false when the empty state is
   * forced, otherwise the list's flag, and `undefined` (None) without a list.
   */
  function HasMore(force: bool, list: Option<AccountList>): (r: Option<bool>)
    ensures r == Some(true) <==> !force && list.Some? && list.value.hasMore
    ensures r.None? <==> !force && list.None?
  {
    if force then Some(false) else if list.Some? then Some(list.value.hasMore) else None
  }

  /** `isLoading={list?.isLoading ?? true}`. */
  function IsLoading(list: Option<AccountList>): (r: bool)
    ensures r <==> list.None? || list.value.isLoading
  {
    match list
    case None => true
    case Some(l) => l.isLoading
  }

  /** `account.acct.split('@')[1]`: the second piece, `undefined` when there is none. */
  function RemoteDomain(acct: string): (r: Option<string>)
    ensures r.None? <==> '@' !in acct
    ensures forall localDomain :: r.Some? ==> r.value == AccountName.SplitAcct(acct, localDomain).domain
  {
    var parts := Split(acct, '@');
    SplitSingleIff(acct, '@');
    if |parts| >= 2 then Some(parts[1]) else None
  }

  /** `append ?? <RemoteHint domain={domain} url={account.url} />`. */
  datatype Append = Custom(node: string) | RemoteHint(domain: Option<string>, url: string)

  datatype ListView =
    | RoutingError
    | LoadingIndicator
    | Loaded(children: seq<Child>, hasMore: Option<bool>, isLoading: bool, append: Append)

  /** The `AccountList` component: routing, loading, or the list column. */
  method RenderAccountList(
    accountId: AccountIdArg, account: Option<Account>, visibility: Visibility,
    list: Option<AccountList>, prepend: Option<string>, append: Option<string>) returns (view: ListView)
    ensures view == RoutingError <==> accountId == Null
    ensures view == LoadingIndicator <==>
      accountId != Null && (!(accountId.Id? && accountId.value != "") || account.None?)
    ensures view.Loaded? ==>
      IsChildList(view.children, ForceEmptyState(visibility), list, prepend) &&
      view.hasMore == HasMore(ForceEmptyState(visibility), list) &&
      view.isLoading == IsLoading(list) &&
      view.append == (if append.Some? then Custom(append.value)
                      else RemoteHint(RemoteDomain(account.value.acct), account.value.url))
  {
    var force := ForceEmptyState(visibility);
    var children := BuildChildren(force, list, prepend);
    if accountId == Null {
      return RoutingError;
    }
    if !(accountId.Id? && accountId.value != "") || account.None? {
      return LoadingIndicator;
    }
    var a := account.value;
    var domain := RemoteDomain(a.acct);
    var app := if append.Some? then Custom(append.value) else RemoteHint(domain, a.url);
    view := Loaded(children, HasMore(force, list), IsLoading(list), app);
  }
}
