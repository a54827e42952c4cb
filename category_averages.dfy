/** The per-category average source levels (LAmax at the 1000 ft reference
    distance) that stand in for an aircraft type without certification data.
    Both src/analysis/noise_calculator.py:55-60 and
    scripts/easa/parse_easa_excel.py:203-225 declare this table; only its
    `default` column is ever read, so only that column is modelled. */
module CategoryAverages {

  /** `CATEGORY_AVERAGES[category]["default"]` for the four categories. */
  const CategoryDefaults: map<string, int> :=
    map["helicopter" := 84, "jet" := 88, "fixed_wing" := 76, "unknown" := 80]

  /** `CATEGORY_AVERAGES.get(category, CATEGORY_AVERAGES["unknown"])["default"]`:
      a category outside the table falls back to the "unknown" row. */
  function DefaultLevel(category: string): (db: int)
    ensures category in CategoryDefaults ==> db == CategoryDefaults[category]
    ensures category !in CategoryDefaults ==> db == 80
    ensures 76 <= db <= 88
  {
    if category in CategoryDefaults then CategoryDefaults[category] else CategoryDefaults["unknown"]
  }
}
