/**
 * The severity marker: a level travels inside a format string as the three
 * characters '@', 'z' and a level character, written at the call site as a
 * string literal adjacent to the format (`CLOG_WARN "disk %s full"`).
 * The level character is the level's offset from '0' (octal 060), so
 * '/' is Print (-1) and ':' is Debug5 (10).
 *
 * A character stands for one C `char` of the format string.
 */
module Marker {
  import Levels

  const Introducer: char := '@'
  const Discriminator: char := 'z'
  /** The character of level 0: octal 060. */
  const Base: char := '0'

  // The CLOG_* markers, one per level.
  const ClogPrint: string := "@z/"
  const ClogCrit: string := "@z0"
  const ClogErr: string := "@z1"
  const ClogWarn: string := "@z2"
  const ClogNote: string := "@z3"
  const ClogInfo: string := "@z4"
  const ClogDebug: string := "@z5"
  const ClogDebug1: string := "@z6"
  const ClogDebug2: string := "@z7"
  const ClogDebug3: string := "@z8"
  const ClogDebug4: string := "@z9"
  const ClogDebug5: string := "@z:"

  /** The markers in level order: the marker of `level` is at `level + 1`. */
  const Table: seq<string> :=
    [ClogPrint, ClogCrit, ClogErr, ClogWarn, ClogNote, ClogInfo,
     ClogDebug, ClogDebug1, ClogDebug2, ClogDebug3, ClogDebug4, ClogDebug5]

  /** True of the levels that have a marker. */
  predicate HasMarker(level: int) {
    Levels.Print <= level <= Levels.Debug5
  }

  /** A format string split into its level and the residual template. */
  datatype Decoded = Decoded(level: int, template: string)

  /** The character that carries `level`: its offset from `Base`. */
  function LevelChar(level: int): (c: char)
    requires HasMarker(level)
    ensures c as int - Base as int == level
  {
    (Base as int + level) as char
  }

  /**
   * Prefixes `template` with the marker of `level`: what the call site's
   * literal concatenation produces.
   */
  function Encode(level: int, template: string): (format: string)
    requires HasMarker(level)
    ensures format == Table[level + 1] + template
  {
    [Introducer, Discriminator, LevelChar(level)] + template
  }

  /**
   * True when a format string starts with a marker: it is '@', 'z' and some
   * level character, followed by a (possibly empty) template.
   */
  predicate Tagged(format: string): (tagged: bool)
    ensures tagged <==> exists c: char, t: string :: format == [Introducer, Discriminator, c] + t
  {
    if |format| > 2 && format[0] == Introducer && format[1] == Discriminator then
      assert format == [Introducer, Discriminator, format[2]] + format[3..];
      true
    else
      false
  }

  /**
   * Splits a format string into its level and template. A tagged format
   * yields the level character minus '0' and the characters after the
   * marker; an untagged one is all template, at level Info.
   */
  function Decode(format: string): (d: Decoded)
    ensures |d.template| <= |format|
    ensures format[|format| - |d.template|..] == d.template
    ensures d.template == format <==> !Tagged(format)
  {
    if Tagged(format) then
      Decoded(format[2] as int - Base as int, format[3..])
    else
      Decoded(Levels.Info, format)
  }

  /**
   * Round trip: decoding an encoded format gives back the level and the
   * untouched template, whatever the template holds (a template that itself
   * starts with a marker is not decoded a second time).
   */
  lemma DecodeEncode(level: int, template: string)
    requires HasMarker(level)
    ensures Decode(Encode(level, template)) == Decoded(level, template)
  {
    var f := Encode(level, template);
    assert f[3..] == template;
  }

  /**
   * The other direction: a tagged format whose level character is in the
   * table is exactly its marker followed by its template.
   */
  lemma EncodeDecode(format: string)
    requires Tagged(format) && HasMarker(Decode(format).level)
    ensures Encode(Decode(format).level, Decode(format).template) == format
  {
    var d := Decode(format);
    var e := Encode(d.level, d.template);
    assert e[..3] == format[..3];
    assert format == format[..3] + format[3..];
  }

  /** Every marker decodes to its own level, and no two levels share a marker. */
  lemma MarkersDecode(level: int, template: string)
    requires HasMarker(level)
    ensures Decode(Table[level + 1] + template) == Decoded(level, template)
    ensures forall other :: HasMarker(other) && other != level ==> Table[other + 1] != Table[level + 1]
  {
    DecodeEncode(level, template);
    forall other | HasMarker(other) && other != level
      ensures Table[other + 1] != Table[level + 1]
    {
      DecodeEncode(other, template);
    }
  }

  /** A format without the "@z" prefix keeps every character and gets level Info. */
  lemma UntaggedIsInfo(format: string)
    requires !Tagged(format)
    ensures Decode(format) == Decoded(Levels.Info, format)
  {
  }

  /** The three ends of the table named by the header: '/', '0' and ':'. */
  lemma TableEnds()
    ensures Decode(ClogPrint).level == Levels.Print
    ensures Decode(ClogCrit).level == Levels.Crit
    ensures Decode(ClogDebug5).level == Levels.Debug5
  {
  }
}
