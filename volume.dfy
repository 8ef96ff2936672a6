/**
 * The volume clean-up rule shared by the popup's `applyAndSaveVolume` and the
 * offscreen document's `updateVolume`: read the input with `parseInt(_, 10)`,
 * fall back to 100 when that is NaN, and clamp the result to [0, 500] percent.
 */
module Volume {
  import opened Wrappers
  import opened JsValues

  /** The gain percent used when nothing usable is known (`DEFAULT_VOLUME`). */
  const DefaultVolume: int := 100
  const MinVolume: int := 0
  const MaxVolume: int := 500

  predicate InRange(vol: int) { MinVolume <= vol <= MaxVolume }

  /** The cleaned gain percent for a raw volume input. */
  function Normalize(volume: JsValue): (vol: int)
    ensures InRange(vol)
    ensures ParseInt(volume).None? ==> vol == DefaultVolume
    ensures ParseInt(volume).Some? && InRange(ParseInt(volume).value) ==> vol == ParseInt(volume).value
    ensures ParseInt(volume).Some? && ParseInt(volume).value < MinVolume ==> vol == MinVolume
    ensures ParseInt(volume).Some? && ParseInt(volume).value > MaxVolume ==> vol == MaxVolume
  {
    var parsed := ParseInt(volume);
    var vol := if parsed.None? then DefaultVolume else parsed.value;
    var vol := if vol < MinVolume then MinVolume else vol;
    if vol > MaxVolume then MaxVolume else vol
  }

  /**
   * A volume already in range survives cleaning unchanged, whether it arrives
   * as a number or as its decimal text.
   */
  lemma NormalizeKeepsInRange(n: int)
    requires InRange(n)
    ensures Normalize(Num(n)) == n
    ensures Normalize(Str(IntToString(n))) == n
  {
    ParseIntRoundTrip(n);
  }

  /** Cleaning a cleaned volume changes nothing, as a number or as text. */
  lemma NormalizeIdempotent(volume: JsValue)
    ensures Normalize(Num(Normalize(volume))) == Normalize(volume)
    ensures Normalize(Str(IntToString(Normalize(volume)))) == Normalize(volume)
  {
    NormalizeKeepsInRange(Normalize(volume));
  }

  /** Cleaning looks at nothing but what `parseInt` reads. */
  lemma NormalizeOnlyReadsParse(a: JsValue, b: JsValue)
    requires ParseInt(a) == ParseInt(b)
    ensures Normalize(a) == Normalize(b)
  {
  }

  /** Text with any leading blanks or trailing junk is cleaned as the number it starts with. */
  lemma NormalizeText(ws: string, n: int, rest: string)
    requires forall i :: 0 <= i < |ws| ==> IsJsWhitespace(ws[i])
    requires rest == [] || !IsDigit(rest[0])
    ensures Normalize(Str(ws + IntToString(n) + rest)) == Normalize(Num(n))
  {
    var text := IntToString(n) + rest;
    assert ws + IntToString(n) + rest == ws + text;
    ParseIntSkipsWhitespace(ws, text);
    ParseIntOfDecimal(n, rest);
    ParseIntRoundTrip(n);
    NormalizeOnlyReadsParse(Str(ws + text), Num(n));
  }

  /** Non-numeric inputs, such as `undefined` or `"abc"`, fall back to the default. */
  lemma NormalizeNonNumeric()
    ensures Normalize(Undefined) == DefaultVolume
    ensures Normalize(Str("abc")) == DefaultVolume
  {
    CaptureFlagKeyIsNaN(0);
    assert "abc"[0] == 'a' && !IsJsWhitespace("abc"[0]);
    assert TrimStart("abc") == "abc";
    ParseIntNaN("abc");
  }
}
