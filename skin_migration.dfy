/**
 * The data migration `GlitchMigrateDefaultSkinSetting`
 * (`db/migrate/20260209142401_glitch_migrate_default_skin_setting.rb`): on a
 * server whose default flavour is `glitch` or `vanilla`, a site-wide `skin`
 * setting naming one of the retired themes is rewritten to the YAML for
 * `default`. The settings table is a map from `var` to its `value` column (`None`
 * for SQL NULL); `YAML.safe_load` is a parameter.
 */
module SkinMigration {
  import opened Wrappers
  import opened Strings

  /** What `YAML.safe_load` returns: a string, some other value, or an exception. */
  datatype Yaml = Str(s: string) | NonString | Raises

  /** The `settings` table, keyed by `var`. */
  type Rows = map<string, Option<string>>

  /** The value written for the `default` skin. */
  const DefaultSkinYaml: string := "--- default\n"

  datatype Outcome = Rewritten | Skipped | Raised

  /** The private `flavour` helper: the stored flavour, `glitch` when missing or blank. */
  function Flavour(rows: Rows, parse: string -> Yaml): (r: Yaml)
    ensures !("flavour" in rows && RubyPresent(rows["flavour"])) ==> r == Str("glitch")
    ensures "flavour" in rows && RubyPresent(rows["flavour"]) ==> r == parse(rows["flavour"].value)
  {
    if "flavour" in rows && RubyPresent(rows["flavour"]) then parse(rows["flavour"].value)
    else Str("glitch")
  }

  predicate IsMigratedFlavour(y: Yaml)
  {
    y == Str("glitch") || y == Str("vanilla")
  }

  predicate IsRetiredTheme(y: Yaml)
  {
    y == Str("mastodon-light") || y == Str("contrast") || y == Str("system")
  }

  /** The guards of `up`, in order; an exception from a parse aborts the migration. */
  function UpOutcome(rows: Rows, parse: string -> Yaml): (r: Outcome)
    ensures r == Raised <==>
      (Flavour(rows, parse) == Raises ||
       (IsMigratedFlavour(Flavour(rows, parse)) && "skin" in rows && RubyPresent(rows["skin"]) &&
        parse(rows["skin"].value) == Raises))
    ensures r == Rewritten ==> IsMigratedFlavour(Flavour(rows, parse)) && "skin" in rows
  {
    var flavour := Flavour(rows, parse);
    if flavour == Raises then Raised
    else if !IsMigratedFlavour(flavour) then Skipped
    else if !("skin" in rows && RubyPresent(rows["skin"])) then Skipped
    else
      var theme := parse(rows["skin"].value);
      if theme == Raises then Raised
      else if !IsRetiredTheme(theme) then Skipped
      else Rewritten
  }

  /** The table after `up`: only a rewrite touches it, and only the `skin` row. */
  function UpRows(rows: Rows, parse: string -> Yaml): (r: Rows)
    ensures r == rows || ("skin" in rows && r == rows["skin" := Some(DefaultSkinYaml)])
  {
    if UpOutcome(rows, parse) == Rewritten then rows["skin" := Some(DefaultSkinYaml)] else rows
  }

  /**
   * A rewrite happens exactly when the effective flavour is `glitch` or `vanilla`,
   * the `skin` row exists with a present value, and that value parses to one of the
   * retired themes; it then holds exactly `--- default\n`.
   */
  lemma RewriteIff(rows: Rows, parse: string -> Yaml)
    ensures UpOutcome(rows, parse) == Rewritten <==>
      IsMigratedFlavour(Flavour(rows, parse)) && "skin" in rows && RubyPresent(rows["skin"]) &&
      IsRetiredTheme(parse(rows["skin"].value))
    ensures UpOutcome(rows, parse) == Rewritten ==> UpRows(rows, parse)["skin"] == Some(DefaultSkinYaml)
    ensures UpOutcome(rows, parse) != Rewritten ==> UpRows(rows, parse) == rows
  {
  }

  /** No setting but `skin` is ever touched, and no row is added or removed. */
  lemma OnlySkinChanges(rows: Rows, parse: string -> Yaml)
    ensures UpRows(rows, parse).Keys == rows.Keys
    ensures forall k :: k in rows && k != "skin" ==> UpRows(rows, parse)[k] == rows[k]
  {
  }

  /**
   * Running `up` a second time changes nothing, provided the YAML for `default`
   * reads back as the string `default`.
   */
  lemma UpIdempotent(rows: Rows, parse: string -> Yaml)
    requires parse(DefaultSkinYaml) == Str("default")
    ensures UpRows(UpRows(rows, parse), parse) == UpRows(rows, parse)
  {
  }

  /** The settings table as the migration sees it through ActiveRecord. */
  class SettingsTable {
    var rows: Rows

    constructor (initial: Rows)
      ensures rows == initial
    {
      rows := initial;
    }

    /** `up`: the guards, then `update_column('value', "--- default\n")` on the skin row. */
    method Up(parse: string -> Yaml) returns (outcome: Outcome)
      modifies this
      ensures outcome == UpOutcome(old(rows), parse)
      ensures rows == UpRows(old(rows), parse)
    {
      var flavour := Flavour(rows, parse);
      if flavour == Raises {
        return Raised;
      }
      if !IsMigratedFlavour(flavour) {
        return Skipped;
      }
      if !("skin" in rows && RubyPresent(rows["skin"])) {
        return Skipped;
      }
      var theme := parse(rows["skin"].value);
      if theme == Raises {
        return Raised;
      }
      if !IsRetiredTheme(theme) {
        return Skipped;
      }
      rows := rows["skin" := Some(DefaultSkinYaml)];
      outcome := Rewritten;
    }

    /** `down` is empty: the migration is not reverted. */
    method Down()
      ensures rows == old(rows)
    {
    }
  }
}
