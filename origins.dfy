/** The router's origin allow-list. PHP keeps it as an array whose keys are
    the allowed origins; `array_keys` lists them in insertion order, so the
    model keeps a duplicate-free sequence in that order. */
module Origins {
  import opened Transfer

  predicate NoDup(s: seq<string>)
  {
    forall i, j :: 0 <= i < j < |s| ==> s[i] != s[j]
  }

  /** `$allowedOrigins[$o] = true`: an existing key keeps its place, a new
      one goes last. */
  function Allow(s: seq<string>, o: string): (r: seq<string>)
    ensures o in r
    ensures forall x :: x in r <==> x in s || x == o
    ensures o in s ==> r == s
    ensures |s| <= |r| && r[..|s|] == s
    ensures NoDup(s) ==> NoDup(r)
  {
    if o in s then s else s + [o]
  }

  /** `unset($allowedOrigins[$o])` when the key is set, nothing otherwise;
      the other keys keep their relative order. */
  function Disallow(s: seq<string>, o: string): (r: seq<string>)
    ensures o !in r
    ensures forall x :: x in r <==> x in s && x != o
    ensures o !in s ==> r == s
    ensures NoDup(s) ==> NoDup(r)
    ensures NoDup(s) && o in s ==> |r| == |s| - 1
  {
    if s == [] then []
    else if s[0] == o then Disallow(s[1..], o)
    else
      var rest := Disallow(s[1..], o);
      assert NoDup(s) ==> s[0] !in s[1..] && NoDup(s[1..]) by {
        if NoDup(s) {
          forall k | 0 <= k < |s| - 1 ensures s[1..][k] != s[0] {
            assert s[1..][k] == s[k + 1];
          }
        }
      }
      assert forall k :: 1 <= k < |[s[0]] + rest| ==> ([s[0]] + rest)[k] == rest[k - 1];
      [s[0]] + rest
  }

  /** The key an `Origin` header is checked under:
      `parse_url($header, PHP_URL_HOST) ?: $header`. `parsed` is what
      `parse_url` returned (None for false or null); PHP's `?:` also falls
      back to the header when the host is "" or "0", both of which are falsy. */
  function OriginKey(header: string, parsed: Option<string>): (key: string)
    ensures header != "" ==> key != ""
    ensures key == header || (parsed == Some(key) && key != "" && key != "0")
    ensures parsed.Some? && parsed.value != "" && parsed.value != "0" ==> key == parsed.value
  {
    if parsed.Some? && parsed.value != "" && parsed.value != "0" then parsed.value else header
  }

  lemma {:induction false} DisallowAppend(s: seq<string>, t: seq<string>, o: string)
    ensures Disallow(s + t, o) == Disallow(s, o) + Disallow(t, o)
  {
    if s == [] {
      assert s + t == t;
    } else {
      assert (s + t)[1..] == s[1..] + t;
      DisallowAppend(s[1..], t, o);
    }
  }

  /** Allowing a new origin and then disallowing it restores the list. */
  lemma AllowThenDisallow(s: seq<string>, o: string)
    requires o !in s
    ensures Disallow(Allow(s, o), o) == s
  {
    DisallowAppend(s, [o], o);
  }

  /** Disallowing an allowed origin and allowing it again keeps the same
      set of origins, with `o` moved to the end. */
  lemma DisallowThenAllow(s: seq<string>, o: string)
    requires NoDup(s) && o in s
    ensures Allow(Disallow(s, o), o) == Disallow(s, o) + [o]
    ensures forall x :: x in Allow(Disallow(s, o), o) <==> x in s
  {
  }

  /** Allowing or disallowing one origin leaves every other origin's
      membership as it was. */
  lemma OthersUnaffected(s: seq<string>, o: string, x: string)
    requires x != o
    ensures x in Allow(s, o) <==> x in s
    ensures x in Disallow(s, o) <==> x in s
  {
  }
}
