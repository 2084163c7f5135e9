/**
 * The download name takeScreenshot gives a frame: "bilibili-", the
 * millisecond clock as a decimal integer, ".png". Drawing, encoding and
 * the download itself are browser services and are not modelled.
 */
module Capture {
  import opened Wrappers
  import opened Decimal

  const Prefix: string := "bilibili-"
  const Suffix: string := ".png"

  /** The file name for a screenshot taken at `millis` (Date.now()). */
  function FileName(millis: nat): (name: string)
    ensures |name| > |Prefix| + |Suffix|
    ensures name[..|Prefix|] == Prefix && name[|name| - |Suffix|..] == Suffix
    ensures Parse(name[|Prefix|..|name| - |Suffix|]) == Some(millis)
  {
    var name := Prefix + Show(millis) + Suffix;
    assert name[|Prefix|..|name| - |Suffix|] == Show(millis);
    ParseShow(millis);
    name
  }

  /** Screenshots taken at different milliseconds get different names. */
  lemma FileNamesDistinct(m: nat, n: nat)
    requires m != n
    ensures FileName(m) != FileName(n)
  {
  }
}
