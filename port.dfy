/**
 * `Port`: an immutable description of one device port, ordered by its id alone.
 */
module Ports {
  import opened Outcomes
  import opened JavaLang

  /** A constructed `Port`; the getters return these fields as given. */
  datatype Port = Port(
    id: Int32,
    universeId: Int32,
    active: bool,
    description: Option<string>,
    supportsRdm: bool)

  /**
   * `compareTo`: `Integer.compare` on the two ids, so its sign is the ids' order
   * and it is 0 whenever the ids agree, however the other fields differ.
   */
  function CompareTo(port: Port, other: Port): (r: int)
    ensures r < 0 <==> port.id < other.id
    ensures r == 0 <==> port.id == other.id
    ensures r > 0 <==> port.id > other.id
  {
    Compare(port.id, other.id)
  }

  /** Swapping the arguments negates the comparison. */
  lemma CompareToAntisymmetric(p: Port, q: Port)
    ensures CompareTo(p, q) == -CompareTo(q, p)
  {
  }

  /** Comparisons chain: `compareTo` is a total preorder on ports. */
  lemma CompareToTransitive(p: Port, q: Port, r: Port)
    ensures CompareTo(p, q) <= 0 && CompareTo(q, r) <= 0 ==> CompareTo(p, r) <= 0
    ensures CompareTo(p, q) == 0 ==> CompareTo(p, r) == CompareTo(q, r)
  {
  }
}
