/** Values shared by the resolution pipeline: requests, answers and the pool's enumerations. */
module DnsTypes {

  datatype Option<+T> = None | Some(value: T)

  /** Go's uint16, the width of a DNS RR TYPE code. */
  newtype uint16 = x: int | 0 <= x < 0x1_0000

  /** requests.DNSAnswer: one resource record as the pool reports it. */
  datatype Answer = Answer(name: string, rrType: int, ttl: int, data: string)

  /** requests.DNSRequest, restricted to the fields processDNSRequest reads or sets. */
  datatype Request = Request(name: string, domain: string, records: seq<Answer>)

  /** resolvers.PriorityLow / PriorityHigh. */
  datatype Priority = PriorityLow | PriorityHigh

  /** resolvers.WildcardTypeNone / Static / Dynamic. */
  datatype WildcardType = WildcardTypeNone | WildcardTypeStatic | WildcardTypeDynamic
}
