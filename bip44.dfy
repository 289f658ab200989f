/**
 * Cardano derivation paths (the path levels of BIP 44, `m / purpose' / coin_type' / account' /
 * change / address_index`) and their textual form. An index is hardened, in the sense of the
 * child key derivation section of BIP 32, when it is at least 2^31; coin type 1815 is Cardano's
 * entry in the SLIP-0044 registry. The same helpers appear in the connector's sources and in
 * its compiled copy.
 */
module Bip44 {
  import opened Wrappers
  import opened Text

  const HARDENED: nat := 0x8000_0000
  const PURPOSE: nat := 44
  const COIN_TYPE: nat := 1815

  type Path = seq<nat>

  predicate IsHardened(index: nat) { index >= HARDENED }

  /** A BIP 32 index: below 2^32, so that a hardened one is HARDENED plus a 31-bit index. */
  predicate IsIndex32(index: nat) { index < 2 * HARDENED }

  /** `makeCardanoAccountBIP44Path(account)`. */
  function AccountPath(account: nat): (p: Path)
    ensures |p| == 3
    ensures forall i :: 0 <= i < 3 ==> IsHardened(p[i])
    ensures p[0] - HARDENED == PURPOSE && p[1] - HARDENED == COIN_TYPE && p[2] - HARDENED == account
  {
    [HARDENED + PURPOSE, HARDENED + COIN_TYPE, HARDENED + account]
  }

  /** `makeCardanoBIP44Path(account, chain, address)`: the account path, then chain and address as given. */
  function AddressPath(account: nat, chain: nat, address: nat): (p: Path)
    ensures |p| == 5
    ensures p[..3] == AccountPath(account)
    ensures p[3] == chain && p[4] == address
  {
    [HARDENED + PURPOSE, HARDENED + COIN_TYPE, HARDENED + account, chain, address]
  }

  /** One path element as `toDerivationPathString` prints it: `item % HARDENED`, then `'` if hardened. */
  function Component(item: nat): (c: string)
    ensures |c| >= 1 && '/' !in c
    ensures c[|c| - 1] == '\'' <==> IsHardened(item)
  {
    var digits := NatToString(item % HARDENED);
    assert forall i :: 0 <= i < |digits| ==> digits[i] != '/' && digits[i] != '\'';
    digits + (if IsHardened(item) then "'" else "")
  }

  /** Without its `'` mark, a printed element is a numeral giving `item % HARDENED`. */
  lemma ComponentShape(item: nat)
    ensures var c := Component(item);
      var digits := if IsHardened(item) then c[..|c| - 1] else c;
      |digits| >= 1 && AllDigits(digits) && DigitsValue(digits) == item % HARDENED
  {
    var c := Component(item);
    NatToStringValue(item % HARDENED);
    if IsHardened(item) {
      assert c[..|c| - 1] == NatToString(item % HARDENED);
    } else {
      assert c == NatToString(item % HARDENED) + "" == NatToString(item % HARDENED);
      assert IsDigit(c[|c| - 1]);
    }
  }

  /** `toDerivationPathString(path)`: `m/` followed by the printed elements joined with `/`. */
  function Render(path: Path): (s: string)
    ensures |s| >= 2 && s[..2] == "m/"
    ensures s == "m/" <==> |path| == 0
  {
    "m/" + Join(seq(|path|, i requires 0 <= i < |path| => Component(path[i])), '/')
  }

  // ---- reading a rendered path back (the inverse the renderer is checked against) ----

  function ParseComponent(c: string): Option<nat>
  {
    if |c| >= 1 && c[|c| - 1] == '\'' then
      match ParseNat(c[..|c| - 1])
      case Some(n) => Some(HARDENED + n)
      case None => None
    else ParseNat(c)
  }

  function ParseComponents(cs: seq<string>): Option<Path>
  {
    if |cs| == 0 then Some([])
    else
      match (ParseComponent(cs[0]), ParseComponents(cs[1..]))
      case (Some(x), Some(xs)) => Some([x] + xs)
      case _ => None
  }

  /** Reads `m/i/j'/...` back into a path. */
  function Parse(s: string): Option<Path>
  {
    if |s| < 2 || s[..2] != "m/" then None
    else if |s| == 2 then Some([])
    else ParseComponents(Split(s[2..], '/'))
  }

  lemma ParseComponentInverts(item: nat)
    requires IsIndex32(item)
    ensures ParseComponent(Component(item)) == Some(item)
  {
    ComponentShape(item);
  }

  lemma {:induction false} ParseComponentsInverts(path: Path)
    requires forall i :: 0 <= i < |path| ==> IsIndex32(path[i])
    ensures ParseComponents(seq(|path|, i requires 0 <= i < |path| => Component(path[i]))) == Some(path)
  {
    if |path| > 0 {
      var cs := seq(|path|, i requires 0 <= i < |path| => Component(path[i]));
      ParseComponentInverts(path[0]);
      ParseComponentsInverts(path[1..]);
      assert cs[1..] == seq(|path| - 1, i requires 0 <= i < |path| - 1 => Component(path[1..][i]));
      assert path == [path[0]] + path[1..];
    }
  }

  /** Every BIP 32 path is recovered from its rendering: the renderer loses nothing below 2^32. */
  lemma RenderParse(path: Path)
    requires forall i :: 0 <= i < |path| ==> IsIndex32(path[i])
    ensures Parse(Render(path)) == Some(path)
  {
    var cs := seq(|path|, i requires 0 <= i < |path| => Component(path[i]));
    var s := Render(path);
    assert s[..2] == "m/" && s[2..] == Join(cs, '/');
    ParseComponentsInverts(path);
    if |path| > 0 {
      forall i | 0 <= i < |cs| ensures '/' !in cs[i] {
        ComponentShape(path[i]);
      }
      SplitJoin(cs, '/');
    }
  }

  /** Above 2^32 the printed form wraps: index 2^32 prints like the hardened index 0. */
  lemma RenderWrapsAbove32Bits()
    ensures Render([2 * HARDENED]) == Render([HARDENED]) == "m/0'"
  {
    assert Component(2 * HARDENED) == "0'";
    assert Component(HARDENED) == "0'";
  }

  lemma NumeralExamples()
    ensures NatToString(44) == "44" && NatToString(1815) == "1815"
  {
    assert NatToString(4) == "4";
    assert NatToString(18) == "18";
    assert NatToString(181) == "181";
  }

  lemma ComponentExamples()
    ensures Component(HARDENED + PURPOSE) == "44'" && Component(HARDENED + COIN_TYPE) == "1815'"
    ensures Component(HARDENED + 1) == "1'" && Component(HARDENED + 7) == "7'"
    ensures Component(0) == "0" && Component(5) == "5"
  {
    NumeralExamples();
  }

  /** The worked example for address (1, 0, 5). */
  lemma RenderAddressExample()
    ensures Render(AddressPath(1, 0, 5)) == "m/44'/1815'/1'/0/5"
  {
    ComponentExamples();
    var address := ["44'", "1815'", "1'", "0", "5"];
    var p := AddressPath(1, 0, 5);
    assert seq(5, i requires 0 <= i < 5 => Component(p[i])) == address;
    assert Join(address[3..], '/') == "0/5";
    assert Join(address[2..], '/') == "1'/0/5";
    assert Join(address[1..], '/') == "1815'/1'/0/5";
  }

  /** The worked example for account 7. */
  lemma RenderAccountExample()
    ensures Render(AccountPath(7)) == "m/44'/1815'/7'"
  {
    ComponentExamples();
    var account := ["44'", "1815'", "7'"];
    var p := AccountPath(7);
    assert seq(3, i requires 0 <= i < 3 => Component(p[i])) == account;
    assert Join(account[1..], '/') == "1815'/7'";
  }
}
