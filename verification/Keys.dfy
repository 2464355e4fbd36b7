/** Tenant keys as text: what `str(tenant_id)` writes into the setting, and the cast that reads it. */
module Keys {

  function Digit(d: nat): char
    requires d < 10
  {
    '0' + d as char
  }

  function RenderNat(n: nat): (s: string)
    ensures s != [] && s[0] != '-'
    decreases n
  {
    if n < 10 then [Digit(n)] else RenderNat(n / 10) + [Digit(n % 10)]
  }

  /** `str(key)` of an integer key. */
  function Render(key: int): (s: string)
    ensures s != []
  {
    if key < 0 then "-" + RenderNat(-key) else RenderNat(key)
  }

  function ParseNat(s: string): (n: nat) {
    if s == [] then 0
    else
      var last := s[|s| - 1];
      10 * ParseNat(s[..|s| - 1]) + if '0' <= last <= '9' then (last - '0') as nat else 0
  }

  /** `::int` and `::bigint` of digits with an optional minus sign. */
  function Parse(s: string): int {
    if s != [] && s[0] == '-' then -(ParseNat(s[1..]) as int) else ParseNat(s)
  }

  lemma {:induction false} ParseRenderedNat(n: nat)
    ensures ParseNat(RenderNat(n)) == n
    decreases n
  {
    if n >= 10 {
      ParseRenderedNat(n / 10);
      var s := RenderNat(n);
      assert s[..|s| - 1] == RenderNat(n / 10) && s[|s| - 1] == Digit(n % 10);
    } else {
      assert RenderNat(n)[..0] == [];
    }
  }

  /** The policy compares with the key the context was entered with. */
  lemma CastReadsTheKey(key: int)
    ensures Parse(Render(key)) == key
  {
    if key < 0 {
      ParseRenderedNat(-key);
      assert Render(key)[1..] == RenderNat(-key);
    } else {
      ParseRenderedNat(key);
    }
  }

  /** No two keys share a setting. */
  lemma KeysDoNotCollide(k1: int, k2: int)
    requires Render(k1) == Render(k2)
    ensures k1 == k2
  {
    CastReadsTheKey(k1);
    CastReadsTheKey(k2);
  }
}
