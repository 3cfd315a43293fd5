/**
 * shortenAddress of the frontend's formatting helpers: the first characters
 * of an address, an ellipsis, and the last characters, with JavaScript's
 * String.prototype.slice semantics for negative and out-of-range indices.
 */
module FormatEth {

  import opened Wrappers

  const DefaultStartChars: int := 6
  const DefaultEndChars: int := 4

  /** slice's reading of an index: a negative one counts from the end, and
      both are clamped to [0, len]. */
  function SliceIndex(len: nat, k: int): (r: nat)
    ensures r <= len
    ensures 0 <= k <= len ==> r == k
    ensures k < 0 && 0 <= len + k ==> r == len + k
    ensures len + k < 0 ==> r == 0
    ensures len < k ==> r == len
  {
    if k < 0 then (if len + k < 0 then 0 else len + k)
    else if k > len then len
    else k
  }

  /** s.slice(begin, end): the characters from the resolved begin up to the
      resolved end, or none when end does not lie past begin. */
  function Slice(s: string, begin: int, end: int): (r: string)
    ensures var from, to := SliceIndex(|s|, begin), SliceIndex(|s|, end);
      |r| == (if from < to then to - from else 0)
      && forall i :: 0 <= i < |r| ==> r[i] == s[from + i]
  {
    var from, to := SliceIndex(|s|, begin), SliceIndex(|s|, end);
    if from < to then s[from..to] else []
  }

  /** s.slice(begin): the suffix from the resolved begin. */
  function SliceFrom(s: string, begin: int): (r: string)
    ensures r == s[SliceIndex(|s|, begin)..]
  {
    Slice(s, begin, |s|)
  }

  /** shortenAddress(address, startChars, endChars); an absent or empty
      address gives the empty string. */
  function ShortenAddress(address: Option<string>, startChars: int, endChars: int): (r: string)
    ensures r == "" <==> address.None? || address.value == ""
  {
    if address.None? || address.value == "" then ""
    else Slice(address.value, 0, startChars) + "..." + SliceFrom(address.value, -endChars)
  }

  /** shortenAddress(address) with the default 6 leading and 4 trailing
      characters. */
  function ShortenAddressDefault(address: Option<string>): (r: string)
    ensures r == "" <==> address.None? || address.value == ""
    ensures address.Some? && |address.value| > DefaultStartChars + DefaultEndChars ==>
      |r| == DefaultStartChars + 3 + DefaultEndChars
  {
    if address.Some? && |address.value| > DefaultStartChars + DefaultEndChars then
      ShortenLength(address.value, DefaultStartChars, DefaultEndChars);
      ShortenAddress(address, DefaultStartChars, DefaultEndChars)
    else
      ShortenAddress(address, DefaultStartChars, DefaultEndChars)
  }

  /** For a non-negative count, the head is the first startChars characters,
      or the whole address when it is shorter. */
  lemma SliceHead(s: string, startChars: int)
    requires 0 <= startChars
    ensures Slice(s, 0, startChars) == if startChars <= |s| then s[..startChars] else s
  {
  }

  /** The tail: the last endChars characters when 0 < endChars <= length;
      the whole address when endChars is 0, because -0 is 0 and slice(0)
      is the whole string, and also when endChars exceeds the length. */
  lemma SliceTail(s: string, endChars: int)
    requires 0 <= endChars
    ensures 0 < endChars <= |s| ==> SliceFrom(s, -endChars) == s[|s| - endChars..]
    ensures endChars == 0 || endChars >= |s| ==> SliceFrom(s, -endChars) == s
  {
  }

  /** A shortened address is its first startChars characters, "...", and
      its last endChars characters. */
  lemma ShortenShape(address: string, startChars: int, endChars: int)
    requires address != "" && 0 <= startChars <= |address| && 0 < endChars <= |address|
    ensures ShortenAddress(Some(address), startChars, endChars)
         == address[..startChars] + "..." + address[|address| - endChars..]
  {
    SliceHead(address, startChars);
    SliceTail(address, endChars);
  }

  /** An address longer than both parts shortens to exactly
      startChars + 3 + endChars characters. */
  lemma ShortenLength(address: string, startChars: int, endChars: int)
    requires 0 <= startChars && 0 < endChars && startChars + endChars < |address|
    ensures |ShortenAddress(Some(address), startChars, endChars)| == startChars + 3 + endChars
  {
    ShortenShape(address, startChars, endChars);
  }

  /** With endChars 0 the "shortened" address ends with the whole address. */
  lemma ShortenZeroTail(address: string, startChars: int)
    requires address != "" && 0 <= startChars <= |address|
    ensures ShortenAddress(Some(address), startChars, 0) == address[..startChars] + "..." + address
    ensures |ShortenAddress(Some(address), startChars, 0)| == startChars + 3 + |address|
  {
    SliceHead(address, startChars);
    SliceTail(address, 0);
  }

  /** A 42-character Ethereum address shortens to 13 characters: "0x" and
      four hex digits, "...", and the last four hex digits. */
  lemma ShortenEthereumAddress(address: string)
    requires |address| == 42
    ensures ShortenAddressDefault(Some(address)) == address[..6] + "..." + address[38..]
    ensures |ShortenAddressDefault(Some(address))| == 13
  {
    ShortenShape(address, 6, 4);
  }
}
