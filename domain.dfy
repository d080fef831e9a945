/** Values shared by the store, the API layer and the components. */
module Domain {

  /** The binary label the classification service assigns. */
  datatype Classification = Productive | Unproductive
  {
    /** The wire spelling, `'productive' | 'unproductive'`. */
    function Name(): string
    {
      match this
      case Productive => "productive"
      case Unproductive => "unproductive"
    }
  }

  /** The parts of a browser `File` handle the client looks at. */
  datatype File = File(name: string, size: nat, mimeType: string)

  /** `Math.round(confidence * 100)`: a confidence in [0, 1] as the nearest
      whole percentage, halves rounded up. The product is taken exactly. */
  function ConfidencePercent(confidence: real): (p: int)
    ensures (p as real) - 0.5 <= confidence * 100.0 < (p as real) + 0.5
    ensures 0.0 <= confidence <= 1.0 ==> 0 <= p <= 100
  {
    (confidence * 100.0 + 0.5).Floor
  }
}
