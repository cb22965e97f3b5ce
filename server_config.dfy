/**
 * The trusted-proxy list the server hands to Gin (backend/main.go, getTrustedProxies). The value of the
 * TRUSTED_PROXIES environment variable is a parameter.
 */
module ServerConfig {
  import opened Text

  /** Loopback for IPv4 and IPv6 and the three private IPv4 ranges, in this order. */
  const DefaultProxies: seq<string> := ["127.0.0.1", "::1", "10.0.0.0/8", "172.16.0.0/12", "192.168.0.0/16"]

  /** The loop of getTrustedProxies: every entry of the buffer is trimmed in place. */
  method TrimEach(buffer: array<string>)
    modifies buffer
    ensures forall k :: 0 <= k < buffer.Length ==> buffer[k] == TrimSpace(old(buffer[k]))
  {
    var i := 0;
    while i < buffer.Length
      invariant 0 <= i <= buffer.Length
      invariant forall k :: 0 <= k < i ==> buffer[k] == TrimSpace(old(buffer[k]))
      invariant forall k :: i <= k < buffer.Length ==> buffer[k] == old(buffer[k])
    {
      buffer[i] := TrimSpace(buffer[i]);
      i := i + 1;
    }
  }

  /**
   * A non-empty value is split on commas (empty pieces kept) and each piece is trimmed;
   * an empty value gives the defaults.
   */
  method GetTrustedProxies(envProxies: string) returns (proxies: seq<string>)
    ensures envProxies == "" ==> proxies == DefaultProxies
    ensures envProxies != "" ==> |proxies| == Count(envProxies, ',') + 1
    ensures envProxies != "" ==> |proxies| == |Split(envProxies, ',')|
    ensures envProxies != "" ==> forall i :: 0 <= i < |proxies| ==> proxies[i] == TrimSpace(Split(envProxies, ',')[i])
  {
    if envProxies == "" {
      return DefaultProxies;
    }
    var pieces := Split(envProxies, ',');
    var buffer := new string[|pieces|](i requires 0 <= i < |pieces| => pieces[i]);
    TrimEach(buffer);
    SplitCount(envProxies, ',');
    proxies := buffer[..];
  }

  /** Every configured entry is free of commas and of surrounding whitespace. */
  lemma EntryIsClean(envProxies: string, i: int)
    requires 0 <= i < |Split(envProxies, ',')|
    ensures ',' !in TrimSpace(Split(envProxies, ',')[i])
    ensures var entry := TrimSpace(Split(envProxies, ',')[i]);
      entry == [] || (!IsSpace(entry[0]) && !IsSpace(entry[|entry| - 1]))
  {
    var piece := Split(envProxies, ',')[i];
    if TrimSpace(piece) != [] {
      assert forall c :: c in piece[LeadingSpace(piece)..|piece| - TrailingSpace(piece)] ==> c in piece;
    }
  }
}
