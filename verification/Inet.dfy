/** Addresses and endpoints of src/ip.rs. */
module Inet {
  import opened Words

  datatype IpAddr = IpAddr(b0: u8, b1: u8, b2: u8, b3: u8)

  const ANY := IpAddr(0, 0, 0, 0)
  const BROADCAST := IpAddr(255, 255, 255, 255)

  datatype Endpoint = Endpoint(addr: IpAddr, port: u16)

  const WILDCARD := Endpoint(ANY, 0)
}
