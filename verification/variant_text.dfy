/** The text of one enum variant as both generators write it,
    `format!("{}({})", name, payload)`, and the decoder that splits such a
    text back into its tag and payload. */
module VariantText {
  import opened Outcomes

  /** `Enum::variant`: a path naming an enum variant, as a value or a pattern. */
  function EnumValue(enumName: string, variant: string): string
  {
    enumName + "::" + variant
  }

  /** `name(payload)`. */
  function VariantOf(name: string, payload: string): string
  {
    name + "(" + payload + ")"
  }

  /** Position of the first occurrence of `c` in `s`. */
  function IndexOf(s: string, c: char): (r: Option<nat>)
    ensures r.None? <==> c !in s
    ensures r.Some? ==> r.value < |s| && s[r.value] == c && c !in s[..r.value]
  {
    if |s| == 0 then None
    else if s[0] == c then Some(0)
    else
      match IndexOf(s[1..], c)
      case None => None
      case Some(k) =>
        assert s[..k + 1] == [s[0]] + s[1..][..k];
        Some(k + 1)
  }

  /** The tag before the first `(` and the payload up to the closing `)`. */
  function SplitVariant(v: string): Option<(string, string)>
  {
    match IndexOf(v, '(')
    case None => None
    case Some(k) =>
      if k + 2 <= |v| && v[|v| - 1] == ')' then Some((v[..k], v[k + 1..|v| - 1])) else None
  }

  /** A variant whose name has no `(` decodes to its name and payload, so the
      variant texts of two functions agree on their tag exactly when the
      functions have the same name. */
  lemma SplitVariantOf(name: string, payload: string)
    requires '(' !in name
    ensures SplitVariant(VariantOf(name, payload)) == Some((name, payload))
  {
    var v := VariantOf(name, payload);
    assert v[..|name|] == name;
    assert v[|name|] == '(';
    assert IndexOf(v, '(') == Some(|name|);
    assert v[|name| + 1..|v| - 1] == payload;
  }
}
