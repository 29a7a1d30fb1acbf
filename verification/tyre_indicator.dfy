/** The tyre badge of a timing row: the compound name is upper-cased and
    looked up in the table of the five known compounds; anything else gets
    the neutral style and the fallback label. */
module TyreIndicator {
  import opened Common
  import opened TimingFormat

  const TyreStyles: map<string, string> := map[
    "SOFT" := "bg-red-500/20 text-red-300 border-red-400/30",
    "MEDIUM" := "bg-yellow-500/20 text-yellow-300 border-yellow-400/30",
    "HARD" := "bg-slate-100/15 text-slate-200 border-slate-200/30",
    "INTERMEDIATE" := "bg-green-500/20 text-green-300 border-green-400/30",
    "WET" := "bg-blue-500/20 text-blue-300 border-blue-400/30"]

  const TyreShort: map<string, string> := map[
    "SOFT" := "S", "MEDIUM" := "M", "HARD" := "H", "INTERMEDIATE" := "I", "WET" := "W"]

  const NeutralStyle := "bg-white/10 text-f1-text-muted border-white/20"

  /** The fallback label as the file spells it: the UTF-8 bytes of an em
      dash read back as Windows-1252 text ("â€”"). */
  const MisencodedDash := "\U{00E2}\U{20AC}\U{201D}"

  /** `(compound || '').toUpperCase()`. */
  function Normalize(compound: Option<string>): (normalized: string)
    ensures !Truthy(compound) ==> normalized == ""
    ensures Truthy(compound) ==> normalized == ToUpper(compound.value) && |normalized| == |compound.value|
  {
    if Truthy(compound) then ToUpper(compound.value) else ""
  }

  /** The badge style: the compound's style, neutral for anything else. */
  function TyreStyle(normalized: string): (style: string)
    ensures normalized in TyreStyles ==> style == TyreStyles[normalized]
    ensures normalized !in TyreStyles ==> style == NeutralStyle
  {
    if normalized in TyreStyles then TyreStyles[normalized] else NeutralStyle
  }

  /** The badge letter as written: the compound's letter, otherwise the
      mis-encoded dash. */
  function TyreLabelAsWritten(normalized: string): (letter: string)
    ensures normalized in TyreShort ==> letter == TyreShort[normalized] && |letter| == 1
    ensures normalized !in TyreShort ==> letter == MisencodedDash
  {
    if normalized in TyreShort then TyreShort[normalized] else MisencodedDash
  }

  /** The badge letter with the fallback the timing rows use: the em dash. */
  function TyreLabel(normalized: string): (letter: string)
    ensures normalized in TyreShort ==> letter == TyreShort[normalized] && |letter| == 1
    ensures normalized !in TyreShort ==> letter == Dash
  {
    if normalized in TyreShort then TyreShort[normalized] else Dash
  }

  /** The badge tooltip: the normalised compound, "Unknown" when empty. */
  function TyreTitle(normalized: string): (title: string)
    ensures title != ""
    ensures normalized != "" ==> title == normalized
  {
    OrStr(normalized, "Unknown")
  }

  /** The compounds are matched whatever their case. */
  lemma KnownCompounds()
    ensures TyreLabel(Normalize(Some("soft"))) == "S"
    ensures TyreLabel(Normalize(Some("Medium"))) == "M"
    ensures TyreLabel(Normalize(Some("HARD"))) == "H"
    ensures TyreLabel(Normalize(Some("intermediate"))) == "I"
    ensures TyreLabel(Normalize(Some("wet"))) == "W"
  {
    assert Normalize(Some("soft")) == "SOFT";
    assert Normalize(Some("Medium")) == "MEDIUM";
    assert Normalize(Some("HARD")) == "HARD";
    assert Normalize(Some("intermediate")) == "INTERMEDIATE";
    assert Normalize(Some("wet")) == "WET";
  }

  /** Style and letter agree on what is known: a compound has a letter iff
      it has a style. */
  lemma TablesAgree(normalized: string)
    ensures normalized in TyreShort <==> normalized in TyreStyles
  {
  }

  /** The dash a row shows for an unknown tyre gets the neutral badge; as
      written its letter is the mis-encoded dash, not the dash the row
      itself shows. */
  lemma RowDashBadge()
    ensures Normalize(Some(Dash)) == Dash
    ensures TyreStyle(Normalize(Some(Dash))) == NeutralStyle
    ensures TyreLabel(Normalize(Some(Dash))) == Dash
    ensures TyreLabelAsWritten(Normalize(Some(Dash))) != Dash
    ensures TyreTitle(Normalize(Some(Dash))) == Dash
  {
    assert Normalize(Some(Dash)) == Dash;
  }

  /** A missing compound shows the neutral badge titled "Unknown". */
  lemma MissingCompound(compound: Option<string>)
    requires !Truthy(compound)
    ensures TyreStyle(Normalize(compound)) == NeutralStyle
    ensures TyreLabel(Normalize(compound)) == Dash
    ensures TyreTitle(Normalize(compound)) == "Unknown"
  {
  }
}
