/**
 * The description shortening of the product card
 * (src/components/ProductCard.jsx).
 */
module ProductCard {
  import opened Wrappers

  /** The `maxLength` used when the caller gives none. */
  const DefaultMaxLength: int := 100

  const Ellipsis: string := "..."

  function Max0(n: int): nat
  {
    if n < 0 then 0 else n
  }

  /** `s.substring(0, end)`: JavaScript clamps `end` into the range 0 .. |s|. */
  function Prefix(s: string, end: int): (r: string)
    ensures |r| == if end < 0 then 0 else if end > |s| then |s| else end
    ensures r == s[..|r|]
  {
    if end < 0 then "" else if end > |s| then s else s[..end]
  }

  /**
   * `truncateDescription(text, maxLength)`; `None` stands for a `null` or
   * `undefined` description.
   */
  function TruncateDescription(text: Option<string>, maxLength: int): (r: string)
    // a falsy description (null, undefined or "") gives ""
    ensures text == None || text == Some("") ==> r == ""
    // a description that fits is returned unchanged
    ensures text.Some? && |text.value| <= maxLength ==> r == text.value
    // a longer one keeps its first maxLength characters, then "..."
    ensures text.Some? && text.value != "" && |text.value| > maxLength ==>
      |r| == Max0(maxLength) + |Ellipsis| &&
      r[..Max0(maxLength)] == text.value[..Max0(maxLength)] &&
      r[Max0(maxLength)..] == Ellipsis
    ensures |r| <= Max0(maxLength) + |Ellipsis|
  {
    match text
    case None => ""
    case Some(s) =>
      if s == "" then ""
      else if |s| > maxLength then Prefix(s, maxLength) + Ellipsis
      else s
  }

  /** The call the card makes: `truncateDescription(product.description)`. */
  function TruncateWithDefault(text: Option<string>): (r: string)
    ensures |r| <= DefaultMaxLength + |Ellipsis|
    ensures text.Some? && |text.value| <= DefaultMaxLength ==> r == text.value
  {
    TruncateDescription(text, DefaultMaxLength)
  }

  /** Shortening an already shortened description changes nothing. */
  lemma TruncateIdempotent(text: Option<string>, maxLength: int)
    ensures TruncateDescription(Some(TruncateDescription(text, maxLength)), maxLength)
         == TruncateDescription(text, maxLength)
  {
  }
}
