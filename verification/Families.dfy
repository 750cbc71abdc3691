/** The two address families, in the order they are listed in. */
module Families {
  datatype Family = IPv4 | IPv6

  function Rank(f: Family): int { if f == IPv4 then 4 else 6 }

  function Width(f: Family): nat { if f == IPv4 then 32 else 128 }
}
