/** Severity levels of the logger: their numeric ranks, their printed names,
    the threshold test applied before a record is built or queued, and the
    mapping from the configured level string to a level. */
module Levels {
  import opened Basics

  /** The five enumerators of the level enum. */
  datatype LogLevel = Off | Error | Warn | Info | Debug {

    /** The enumerator's integer value: OFF is -1, then ERROR = 0 up to DEBUG = 3. */
    function Rank(): (r: int)
      ensures -1 <= r <= 3
      ensures r == -1 <==> this == Off
    {
      match this
      case Off => -1
      case Error => 0
      case Warn => 1
      case Info => 2
      case Debug => 3
    }
  }

  /** The four levels a record is normally written at (every level but OFF). */
  predicate IsRecordLevel(l: LogLevel) {
    l != Off
  }

  /** The printed name: the four record levels have their own name, every
      other value prints as "OFF". */
  function LevelName(l: LogLevel): (name: string)
    ensures l == Off ==> name == "OFF"
  {
    match l
    case Error => "ERROR"
    case Warn => "WARN"
    case Info => "INFO"
    case Debug => "DEBUG"
    case Off => "OFF"
  }

  /** The threshold test: a record is rejected when its rank is greater than
      the configured level's rank. */
  predicate Admits(threshold: LogLevel, l: LogLevel) {
    !(l.Rank() > threshold.Rank())
  }

  /** ASCII upper-casing, as `::toupper` does in the C locale. */
  function ToUpper(c: char): (u: char)
    ensures 'a' <= c <= 'z' ==> u as int == c as int - 32
    ensures !('a' <= c <= 'z') ==> u == c
  {
    if 'a' <= c <= 'z' then (c as int - 32) as char else c
  }

  /** The level chosen from a configured level string: only its upper-cased
      first character matters; an empty string reads as its terminating NUL
      and, like any other unknown letter, selects INFO. */
  function ParseLevel(s: string): (l: LogLevel)
    ensures l != Off
  {
    var first := if |s| == 0 then '\0' else ToUpper(s[0]);
    if first == 'E' then Error
    else if first == 'W' then Warn
    else if first == 'I' then Info
    else if first == 'D' then Debug
    else Info
  }

  /** The configured level after loading: an absent `level` key keeps the
      current (default) level, a present one is parsed. */
  function LoadLevel(current: LogLevel, value: Option<string>): (l: LogLevel)
    ensures value.None? ==> l == current
    ensures value.Some? ==> l != Off
  {
    match value
    case None => current
    case Some(s) => ParseLevel(s)
  }

  // ---------------------------------------------------------------------
  // Properties

  /** The ranks are strictly ordered OFF < ERROR < WARN < INFO < DEBUG, so the
      rank determines the level. */
  lemma RanksOrdered()
    ensures Off.Rank() < Error.Rank() < Warn.Rank() < Info.Rank() < Debug.Rank()
    ensures forall a: LogLevel, b: LogLevel :: a.Rank() == b.Rank() ==> a == b
  {
    forall a: LogLevel, b: LogLevel | a.Rank() == b.Rank() ensures a == b {
      match a
      case Off =>
      case Error =>
      case Warn =>
      case Info =>
      case Debug =>
    }
  }

  /** The four record levels have pairwise distinct names, none of them "OFF". */
  lemma NamesDistinct(a: LogLevel, b: LogLevel)
    ensures LevelName(a) == LevelName(b) <==> a == b
    ensures IsRecordLevel(a) ==> LevelName(a) != "OFF"
  {
  }

  /** A record passes the threshold iff its rank is at most the threshold's
      rank; the test is monotone in the threshold. */
  lemma AdmitsByRank(threshold: LogLevel, l: LogLevel, wider: LogLevel)
    ensures Admits(threshold, l) <==> l.Rank() <= threshold.Rank()
    ensures Admits(threshold, l) && threshold.Rank() <= wider.Rank() ==> Admits(wider, l)
  {
  }

  /** Threshold DEBUG admits every level; threshold OFF admits none of the four
      record levels (only OFF itself, whose rank is not greater than -1). */
  lemma ThresholdExtremes(l: LogLevel)
    ensures Admits(Debug, l)
    ensures IsRecordLevel(l) ==> !Admits(Off, l)
    ensures Admits(Off, Off)
  {
  }

  /** An ERROR threshold admits exactly ERROR among the record levels, and each
      threshold admits itself. */
  lemma ErrorThreshold(l: LogLevel)
    ensures IsRecordLevel(l) ==> (Admits(Error, l) <==> l == Error)
    ensures Admits(l, l)
  {
  }

  /** Parsing looks only at the first character, ignoring its case. */
  lemma ParseLevelFirstLetter(s: string, t: string)
    requires |s| > 0 && |t| > 0 && ToUpper(s[0]) == ToUpper(t[0])
    ensures ParseLevel(s) == ParseLevel(t)
  {
  }

  /** The letter table: E, W, I, D in either case select ERROR, WARN, INFO,
      DEBUG; every other first character, and the empty string, select INFO. */
  lemma ParseLevelTable(s: string)
    ensures |s| > 0 && ToUpper(s[0]) == 'E' ==> ParseLevel(s) == Error
    ensures |s| > 0 && ToUpper(s[0]) == 'W' ==> ParseLevel(s) == Warn
    ensures |s| > 0 && ToUpper(s[0]) == 'D' ==> ParseLevel(s) == Debug
    ensures |s| == 0 || ToUpper(s[0]) !in "EWD" ==> ParseLevel(s) == Info
  {
  }

  /** Every printed record-level name, in any letter case, parses back to its
      level. */
  lemma ParseLevelName(l: LogLevel)
    requires IsRecordLevel(l)
    ensures ParseLevel(LevelName(l)) == l
    ensures ParseLevel(LowerCase(LevelName(l))) == l
  {
  }

  /** ASCII lower-casing of a string (helper for ParseLevelName). */
  function LowerCase(s: string): (r: string)
    ensures |r| == |s|
  {
    if |s| == 0 then [] else [if 'A' <= s[0] <= 'Z' then (s[0] as int + 32) as char else s[0]] + LowerCase(s[1..])
  }
}
