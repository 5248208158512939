/**
 * The block structure of `pactl list sinks` output, shared by the checks that read it:
 * every sink's block opens with a "Name:" line.
 */
module Listing {
  import opened Text

  const NAME_KEY: string := "Name:"

  /** A sink boundary: the trimmed line starts with "Name:". */
  predicate IsNameLine(t: string) {
    StartsWith(t, NAME_KEY)
  }

  /** The boundary line of the sink called `target` (the name is trimmed again). */
  predicate IsTargetLine(t: string, target: string) {
    IsNameLine(t) && Trim(t[|NAME_KEY|..]) == target
  }
}
