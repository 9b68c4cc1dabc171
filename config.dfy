/**
 * The two fixed values of src/config/index.ts the reconciler uses: the
 * category-to-label table and the reminder lead time. Everything else in that
 * file reads the process environment and is not part of this model.
 */
module Config {
  import opened Schemas

  /** `WASTE_TYPE_MAPPING`, keyed by the schema's key strings. */
  const WasteTypeMapping: map<string, string> := map[
    "metals_and_plastics" := "Plastic Garbage",
    "paper" := "Paper Garbage",
    "glass" := "Glass Garbage",
    "bio" := "Bio Garbage",
    "mixed" := "Mixed Garbage"]

  /** `REMINDER_MINUTES`: a popup six hours before the all-day event starts. */
  const ReminderMinutes: int := 360

  /** The event summary for a category: the table looked up by the category's key. */
  function Label(c: Category): (summary: string)
    ensures Key(c) in WasteTypeMapping && summary == WasteTypeMapping[Key(c)]
  {
    WasteTypeMapping[Key(c)]
  }

  /** The table covers exactly the schema's five keys, and no two categories share a label. */
  lemma LabelTable()
    ensures WasteTypeMapping.Keys == set c | c in Categories :: Key(c)
    ensures forall c, d :: c != d ==> Label(c) != Label(d)
    ensures Label(MetalsAndPlastics) == "Plastic Garbage" && Label(Paper) == "Paper Garbage"
    ensures Label(Glass) == "Glass Garbage" && Label(Bio) == "Bio Garbage" && Label(Mixed) == "Mixed Garbage"
  {
    var keys := set c | c in Categories :: Key(c);
    assert Key(MetalsAndPlastics) in keys && Key(Paper) in keys && Key(Glass) in keys;
    assert Key(Bio) in keys && Key(Mixed) in keys;
  }
}
