/** Query and form fields, each with the values given for it. */
module Forms {
  type Fields = map<string, seq<string>>

  /** The first value of a field, or the empty text where it is missing. */
  function First(values: Fields, key: string): string {
    if key in values && values[key] != [] then values[key][0] else ""
  }

  /** Of several values the first counts. */
  lemma FirstMeaning(values: Fields, key: string, v: string, rest: seq<string>)
    ensures First(values[key := [v] + rest], key) == v && First(values - {key}, key) == ""
  {}
}
