/**
 * The profile metadata fields (`account_timeline/components/fields.tsx`): the
 * classic layout hands the fields to a list component, the redesigned layout maps
 * each field to a card whose icon follows a precedence rule (verified link, then
 * plain link, then nothing). `isValidUrl` is a parameter: its code is not part of
 * this model.
 */
module Fields {
  import opened Wrappers
  import opened Strings
  import opened Accounts

  datatype Icon = Verified | Link | NoIcon

  /** `fieldIcon(verified_at, value_plain)`. */
  function FieldIcon(verifiedAt: Option<string>, valuePlain: Option<string>, isValidUrl: string -> bool): (r: Icon)
    ensures r == Verified <==> Truthy(verifiedAt)
    ensures r == Link <==> !Truthy(verifiedAt) && Truthy(valuePlain) && isValidUrl(valuePlain.value)
    ensures r == NoIcon <==> !Truthy(verifiedAt) && !(Truthy(valuePlain) && isValidUrl(valuePlain.value))
  {
    if Truthy(verifiedAt) then Verified
    else if Truthy(valuePlain) && isValidUrl(valuePlain.value) then Link
    else NoIcon
  }

  /** A missing or empty plain value never gets the link icon, whatever `isValidUrl` says. */
  lemma NoLinkWithoutValue(verifiedAt: Option<string>, valuePlain: Option<string>, isValidUrl: string -> bool)
    requires valuePlain.None? || valuePlain == Some("")
    ensures FieldIcon(verifiedAt, valuePlain, isValidUrl) != Link
  {
  }

  /** One `MiniCard` of the redesigned layout. */
  datatype Card = Card(
    key: nat,
    labelHtml: string,
    labelTitle: string,
    valueHtml: string,
    valueTitle: Option<string>,
    icon: Icon,
    verifiedClass: bool)

  function FieldCard(f: Field, key: nat, isValidUrl: string -> bool): Card
  {
    Card(key, f.nameEmojified, f.name, f.valueEmojified, f.valuePlain,
         FieldIcon(f.verifiedAt, f.valuePlain, isValidUrl), Truthy(f.verifiedAt))
  }

  /**
   * `account.fields.map(...)`: one card per field, in field order, keyed by position;
   * a card carries the verified class exactly when it carries the verified icon.
   */
  function FieldCards(fields: seq<Field>, isValidUrl: string -> bool): (r: seq<Card>)
    ensures |r| == |fields|
    ensures forall i :: 0 <= i < |r| ==>
      r[i].key == i && r[i].labelHtml == fields[i].nameEmojified && r[i].labelTitle == fields[i].name &&
      r[i].valueHtml == fields[i].valueEmojified && r[i].valueTitle == fields[i].valuePlain &&
      r[i].icon == FieldIcon(fields[i].verifiedAt, fields[i].valuePlain, isValidUrl) &&
      (r[i].verifiedClass <==> Truthy(fields[i].verifiedAt)) &&
      (r[i].verifiedClass <==> r[i].icon == Verified)
  {
    seq(|fields|, i requires 0 <= i < |fields| => FieldCard(fields[i], i, isValidUrl))
  }

  datatype FieldsView =
    | Nothing
    | ClassicFields(joined: string, fields: seq<Field>)
    | RedesignCards(cards: seq<Card>)

  /** The `AccountHeaderFields` component. */
  function RenderHeaderFields(account: Option<Account>, redesign: bool, isValidUrl: string -> bool): (r: FieldsView)
    ensures r.Nothing? <==> account.None?
    ensures account.Some? && redesign ==> r.RedesignCards? && |r.cards| == |account.value.fields|
    ensures account.Some? && redesign ==> r == RedesignCards(FieldCards(account.value.fields, isValidUrl))
    ensures account.Some? && !redesign ==>
      r == ClassicFields(account.value.createdAt, account.value.fields)
  {
    match account
    case None => Nothing
    case Some(a) =>
      if redesign then RedesignCards(FieldCards(a.fields, isValidUrl))
      else ClassicFields(a.createdAt, a.fields)
  }
}
