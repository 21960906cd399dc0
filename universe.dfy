/**
 * `Universe`: an immutable DMX universe with an id, a name and a merge mode.
 */
module Universes {
  import opened Outcomes
  import opened JavaLang

  /** The two merge modes of the OLA protocol: highest takes precedence, latest takes precedence. */
  datatype MergeMode = HTP | LTP

  /** A constructed `Universe`: its merge mode is never null. */
  datatype Universe = Universe(id: Int32, name: Option<string>, mergeMode: MergeMode)

  /**
   * The three-argument constructor: id and name are kept as given (the name is
   * not checked); a null merge mode throws.
   */
  function NewUniverseWithMode(id: Int32, name: Option<string>, mergeMode: Option<MergeMode>): (r: Outcome<Universe>)
    ensures r.Threw? <==> mergeMode.None?
    ensures r.Threw? ==> r.exception == IllegalArgumentException
    ensures r.Returned? ==> r.value == Universe(id, name, mergeMode.value)
  {
    match mergeMode
    case None => Threw(IllegalArgumentException)
    case Some(mode) => Returned(Universe(id, name, mode))
  }

  /** The two-argument constructor: delegates with HTP, so it never throws. */
  function NewUniverse(id: Int32, name: Option<string>): (r: Outcome<Universe>)
    ensures r == Returned(Universe(id, name, HTP))
  {
    NewUniverseWithMode(id, name, Some(HTP))
  }
}
