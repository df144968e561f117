/**
 * The slice of the client-side account model that the profile views read
 * (`flavours/glitch/models/account`). `models/account` is not part of this model;
 * only the attributes the views use are kept.
 */
module Accounts {
  import opened Wrappers

  /** One profile metadata field, as `account.fields` holds it. */
  datatype Field = Field(
    name: string,
    nameEmojified: string,
    valueEmojified: string,
    valuePlain: Option<string>,
    verifiedAt: Option<string>)

  datatype Account = Account(
    id: string,
    username: string,
    acct: string,
    displayName: string,
    suspended: bool,
    noindex: bool,
    memorial: bool,
    moved: Option<string>,
    locked: bool,
    avatar: string,
    header: string,
    headerStatic: string,
    url: string,
    createdAt: string,
    fields: seq<Field>)
}
