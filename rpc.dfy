/** The eight method names the handler dispatches on. */
module Rpc {
  import opened Wrappers

  datatype Method =
    | CreateDataChannel
    | CreateOffer
    | GetOffer
    | CreateCandidate
    | CreateAnswer
    | GetCandidates
    | GetAnswer
    | Echo

  function Name(m: Method): string {
    match m
    case CreateDataChannel => "create_data_channel"
    case CreateOffer => "create_offer"
    case GetOffer => "get_offer"
    case CreateCandidate => "create_candidate"
    case CreateAnswer => "create_answer"
    case GetCandidates => "get_candidates"
    case GetAnswer => "get_answer"
    case Echo => "echo"
  }

  /**
   * The method a name selects: exactly the one it is the name of, if any.
   * Every name begins with a lower-case letter.
   */
  function Parse(name: string): (r: Option<Method>)
    ensures forall m :: Name(m) == name <==> r == Some(m)
    ensures r.Some? ==> |name| > 0 && 'a' <= name[0] <= 'z'
  {
    match name
    case "create_data_channel" => Some(CreateDataChannel)
    case "create_offer" => Some(CreateOffer)
    case "get_offer" => Some(GetOffer)
    case "create_candidate" => Some(CreateCandidate)
    case "create_answer" => Some(CreateAnswer)
    case "get_candidates" => Some(GetCandidates)
    case "get_answer" => Some(GetAnswer)
    case "echo" => Some(Echo)
    case _ => None
  }

  /** Whether a method writes to the table. */
  predicate Writes(m: Method) {
    m == CreateDataChannel || m == CreateOffer || m == CreateCandidate || m == CreateAnswer
  }
}
