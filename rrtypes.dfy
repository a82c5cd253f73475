/**
 * typeToName: RR TYPE codes to their mnemonics. The codes are the TYPE values of
 * section 3.2.2 of RFC 1035, AAAA from section 2.1 of RFC 3596, SRV from RFC 2782
 * and SPF from section 3.1.1 of RFC 4408.
 */
module RRTypes {
  import opened DnsTypes
  import opened Text

  const TypeA: uint16 := 1
  const TypeNS: uint16 := 2
  const TypeCNAME: uint16 := 5
  const TypeSOA: uint16 := 6
  const TypePTR: uint16 := 12
  const TypeMX: uint16 := 15
  const TypeTXT: uint16 := 16
  const TypeAAAA: uint16 := 28
  const TypeSRV: uint16 := 33
  const TypeSPF: uint16 := 99

  /** The codes typeToName has a case for. */
  const KnownTypes: set<uint16> :=
    {TypeCNAME, TypeA, TypeAAAA, TypePTR, TypeNS, TypeMX, TypeTXT, TypeSOA, TypeSPF, TypeSRV}

  /** Reverse table, the partner of TypeToName. */
  function NameToType(name: string): Option<uint16>
  {
    if name == "CNAME" then Some(TypeCNAME)
    else if name == "A" then Some(TypeA)
    else if name == "AAAA" then Some(TypeAAAA)
    else if name == "PTR" then Some(TypePTR)
    else if name == "NS" then Some(TypeNS)
    else if name == "MX" then Some(TypeMX)
    else if name == "TXT" then Some(TypeTXT)
    else if name == "SOA" then Some(TypeSOA)
    else if name == "SPF" then Some(TypeSPF)
    else if name == "SRV" then Some(TypeSRV)
    else None
  }

  /** The switch of typeToName; unknown codes give the empty string. */
  function TypeToName(qtype: uint16): (name: string)
    ensures name == "" <==> qtype !in KnownTypes
    ensures name != "" ==> NameToType(name) == Some(qtype)
  {
    if qtype == TypeCNAME then "CNAME"
    else if qtype == TypeA then "A"
    else if qtype == TypeAAAA then "AAAA"
    else if qtype == TypePTR then "PTR"
    else if qtype == TypeNS then "NS"
    else if qtype == TypeMX then "MX"
    else if qtype == TypeTXT then "TXT"
    else if qtype == TypeSOA then "SOA"
    else if qtype == TypeSPF then "SPF"
    else if qtype == TypeSRV then "SRV"
    else ""
  }

  /** Every mnemonic the reverse table knows comes back from its code. */
  lemma NameToTypeRoundTrip(name: string, qtype: uint16)
    requires NameToType(name) == Some(qtype)
    ensures TypeToName(qtype) == name
  {
  }

  /** Distinct codes never share a mnemonic. */
  lemma TypeToNameInjective(p: uint16, q: uint16)
    requires TypeToName(p) != "" && TypeToName(p) == TypeToName(q)
    ensures p == q
  {
  }

  /** Mnemonics are already upper case, so they compare equal to normalised record types. */
  lemma TypeToNameIsUpper(qtype: uint16)
    ensures IsUpper(TypeToName(qtype))
    ensures Upper(TypeToName(qtype)) == TypeToName(qtype)
  {
  }
}
