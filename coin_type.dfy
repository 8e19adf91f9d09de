/** `convertChainIdToCoinType`: the coin-type string a chain's reverse names are
    filed under. Ethereum mainnet and the Zilliqa testnet are fixed literals; every
    other chain follows the ENSIP-11 rule `0x80000000 | chainId`, printed as
    upper-case hexadecimal. */
module CoinType {
  import Js
  import opened Chains

  const HIGH_BIT: nat := 0x8000_0000
  const TWO_TO_32: nat := 0x1_0000_0000

  /** `(0x80000000 | chainId) >>> 0` for an integral `chainId`: the operand's bit
      pattern is `chainId` modulo 2^32 (ToInt32), OR-ing in 0x80000000 sets bit 31
      (adding 2^31 when it was clear, changing nothing when it was set), and
      `>>> 0` reads the pattern back as an unsigned number. */
  function CoinTypeNumber(chainId: int): (v: nat)
    ensures v == HIGH_BIT + chainId % HIGH_BIT
  {
    var pattern := chainId % TWO_TO_32;
    LowBitsOfPattern(chainId);
    if pattern < HIGH_BIT then pattern + HIGH_BIT else pattern
  }

  /** Reducing modulo 2^32 keeps the low 31 bits. */
  lemma LowBitsOfPattern(x: int)
    ensures (x % 0x1_0000_0000) % 0x8000_0000 == x % 0x8000_0000
  {
    var q, r := x / 0x1_0000_0000, x % 0x1_0000_0000;
    var h, l := r / 0x8000_0000, r % 0x8000_0000;
    assert x == (2 * q + h) * 0x8000_0000 + l;
    ModUnique(x, 2 * q + h, l);
  }

  lemma ModUnique(x: int, k: int, b: int)
    requires 0 <= b < 0x8000_0000 && x == k * 0x8000_0000 + b
    ensures x % 0x8000_0000 == b
  {
  }

  /** The digit `Number.prototype.toString(16)` prints for d: 0-9, then a-f. */
  function LowerHexDigit(d: nat): (c: char)
    requires d < 16
  {
    if d < 10 then ('0' as int + d) as char else ('a' as int + d - 10) as char
  }

  predicate IsLowerHexDigit(c: char) {
    '0' <= c <= '9' || 'a' <= c <= 'f'
  }

  predicate IsUpperHexDigit(c: char) {
    '0' <= c <= '9' || 'A' <= c <= 'F'
  }

  /** `n.toString(16)` for a non-negative integer: the shortest lower-case
      hexadecimal numeral (no prefix, no leading zeros, "0" for zero). */
  function ToHexString(n: nat): (s: string)
    ensures |s| >= 1
    ensures forall i :: 0 <= i < |s| ==> IsLowerHexDigit(s[i])
    ensures n > 0 ==> s[0] != '0'
    decreases n
  {
    if n < 16 then [LowerHexDigit(n)] else ToHexString(n / 16) + [LowerHexDigit(n % 16)]
  }

  /** The value of one upper-case hexadecimal digit. */
  function UpperHexValue(c: char): (d: nat)
    requires IsUpperHexDigit(c)
    ensures d < 16
  {
    if '0' <= c <= '9' then c as int - '0' as int else c as int - 'A' as int + 10
  }

  predicate IsUpperHex(s: string) {
    forall i :: 0 <= i < |s| ==> IsUpperHexDigit(s[i])
  }

  /** Reads an upper-case hexadecimal numeral back into the number it denotes. */
  function ParseUpperHex(s: string): nat
    requires IsUpperHex(s)
  {
    if s == [] then 0 else ParseUpperHex(s[..|s| - 1]) * 16 + UpperHexValue(s[|s| - 1])
  }

  /** `convertChainIdToCoinType(chainId)` (src/lib/utils/convertChainIdToCoinType.ts). */
  function ConvertChainIdToCoinType(chainId: int): (r: string)
    ensures chainId == ETHEREUM_MAINNET_ID ==> r == "addr"
    ensures chainId == ZILLIQA_TESTNET_ID ==> r == "80002105"
    ensures chainId != ETHEREUM_MAINNET_ID && chainId != ZILLIQA_TESTNET_ID ==>
              |r| == 8 && IsUpperHex(r) && ParseUpperHex(r) == CoinTypeNumber(chainId)
  {
    if chainId == ETHEREUM_MAINNET_ID then
      "addr"
    else if chainId == ZILLIQA_TESTNET_ID then
      "80002105"
    else
      var n := CoinTypeNumber(chainId);
      UpperHexRoundTrip(n);
      Pow16Values();
      HexStringLength(n, 8);
      // `toLocaleUpperCase()`: on hex digits every locale agrees with ASCII upper-casing
      Js.ToUpper(ToHexString(n))
  }

  function Pow16(k: nat): (p: nat)
    ensures p >= 1
  {
    if k == 0 then 1 else 16 * Pow16(k - 1)
  }

  lemma Pow16Values()
    ensures Pow16(7) == 0x1000_0000 && Pow16(8) == 0x1_0000_0000
  {
    assert Pow16(2) == 0x100;
    assert Pow16(4) == 0x1_0000 by { assert Pow16(3) == 0x1000; }
    assert Pow16(6) == 0x100_0000 by { assert Pow16(5) == 0x10_0000; }
  }

  /** A number with k hexadecimal digits prints as exactly k characters. */
  lemma {:induction false} HexStringLength(n: nat, k: nat)
    requires k >= 1 && Pow16(k - 1) <= n < Pow16(k)
    ensures |ToHexString(n)| == k
  {
    if k > 1 {
      assert n >= 16 by { assert Pow16(k - 1) == 16 * Pow16(k - 2); }
      HexStringLength(n / 16, k - 1);
    }
  }

  /** Upper-casing the lower-case numeral gives an upper-case numeral that reads
      back as the number printed. */
  lemma {:induction false} UpperHexRoundTrip(n: nat)
    ensures IsUpperHex(Js.ToUpper(ToHexString(n)))
    ensures ParseUpperHex(Js.ToUpper(ToHexString(n))) == n
    decreases n
  {
    var s := ToHexString(n);
    var t := Js.ToUpper(s);
    assert IsUpperHex(t);
    var d := n % 16;
    assert t[|t| - 1] == Js.UpperChar(LowerHexDigit(d));
    assert UpperHexValue(t[|t| - 1]) == d;
    if n >= 16 {
      UpperHexRoundTrip(n / 16);
      assert t[..|t| - 1] == Js.ToUpper(ToHexString(n / 16));
    } else {
      assert t[..|t| - 1] == [];
    }
  }

  /** On the computed branch the low 31 bits of the chain id are what the string
      encodes: for 0 <= chainId < 2^31 it is the hex of 2^31 + chainId. */
  lemma ComputedCoinType(chainId: int)
    requires 0 <= chainId < HIGH_BIT
    requires chainId != ETHEREUM_MAINNET_ID && chainId != ZILLIQA_TESTNET_ID
    ensures ParseUpperHex(ConvertChainIdToCoinType(chainId)) == HIGH_BIT + chainId
    ensures ConvertChainIdToCoinType(chainId) != "addr"
  {
  }

  /** Two chain ids outside the literal cases get the same coin type exactly when
      they agree modulo 2^31; in particular the rule is injective on [0, 2^31). */
  lemma ComputedCoinTypeInjective(a: int, b: int)
    requires a != ETHEREUM_MAINNET_ID && a != ZILLIQA_TESTNET_ID
    requires b != ETHEREUM_MAINNET_ID && b != ZILLIQA_TESTNET_ID
    ensures ConvertChainIdToCoinType(a) == ConvertChainIdToCoinType(b) <==> a % HIGH_BIT == b % HIGH_BIT
  {
    var va, vb := CoinTypeNumber(a), CoinTypeNumber(b);
    assert va == HIGH_BIT + a % HIGH_BIT;
    assert vb == HIGH_BIT + b % HIGH_BIT;
  }

  /** Zilliqa mainnet (32769 = 0x8001) is not a literal case: it gets "80008001". */
  lemma ZilliqaMainnetCoinType()
    ensures ConvertChainIdToCoinType(ZILLIQA_ID) == "80008001"
  {
    assert CoinTypeNumber(ZILLIQA_ID) == 0x8000_8001;
    assert ToHexString(0x8000) == "8000" by {
      assert ToHexString(0x80) == "80";
      assert ToHexString(0x800) == "800";
    }
    assert ToHexString(0x800_080) == "800080" by {
      assert ToHexString(0x80008) == "80008";
    }
    assert ToHexString(0x8000_8001) == "80008001" by {
      assert ToHexString(0x800_0800) == "8000800";
    }
  }

  /** The testnet's literal is not what the rule would give it (33101 = 0x814D). */
  lemma TestnetLiteralIsNotComputed()
    ensures ConvertChainIdToCoinType(ZILLIQA_TESTNET_ID) == "80002105"
    ensures Js.ToUpper(ToHexString(CoinTypeNumber(ZILLIQA_TESTNET_ID))) == "8000814D"
  {
    assert CoinTypeNumber(ZILLIQA_TESTNET_ID) == 0x8000_814D;
    assert ToHexString(0x8000) == "8000" by {
      assert ToHexString(0x80) == "80";
      assert ToHexString(0x800) == "800";
    }
    assert ToHexString(0x800_081) == "800081" by {
      assert ToHexString(0x80008) == "80008";
    }
    assert ToHexString(0x8000_814D) == "8000814d" by {
      assert ToHexString(0x800_0814) == "8000814";
    }
  }

  /** The testnet literal is the coin type the rule gives chain 8453 (0x2105), so
      the mapping is not injective over all chain ids. */
  lemma TestnetCollidesWithChain8453()
    ensures ConvertChainIdToCoinType(8453) == ConvertChainIdToCoinType(ZILLIQA_TESTNET_ID)
  {
    assert CoinTypeNumber(8453) == 0x8000_2105;
    assert ToHexString(0x8000) == "8000" by {
      assert ToHexString(0x80) == "80";
      assert ToHexString(0x800) == "800";
    }
    assert ToHexString(0x800_021) == "800021" by {
      assert ToHexString(0x80002) == "80002";
    }
    assert ToHexString(0x8000_2105) == "80002105" by {
      assert ToHexString(0x800_0210) == "8000210";
    }
  }
}
