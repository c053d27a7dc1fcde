/** Balance reading for the end-to-end batch: the native-coin / ERC-20
    dispatch of `getTokenBalance` and the bounded poll of
    `waitForBalanceChange`. The chain itself is abstract: a `Provider` value
    stands for what a JSON-RPC provider answers at one moment. */
module Utils {

  datatype Option<T> = None | Some(value: T)

  /** Delay between two balance polls, in milliseconds. */
  const TestWait: nat := 200
  /** Default number of balance polls. */
  const Iterations: nat := 80

  /** The reserved address that stands for a chain's native coin. */
  const NativeToken: string := "0xEeeeeEeeeEeEeeEeEeEeeEEEeeeeEeeeeeeeEEeE"

  /** What one RPC provider answers: the native balance of an account, and
      `balanceOf(account)` of the ERC-20 contract at a token address. */
  datatype Provider = Provider(
    getBalance: string -> nat,
    balanceOf: (string, string) -> nat)

  // ---------------------------------------------------------------------
  // BigNumber's decimal text form

  function DigitChar(d: nat): (c: char)
    requires d < 10
    ensures '0' <= c <= '9'
  {
    ['0', '1', '2', '3', '4', '5', '6', '7', '8', '9'][d]
  }

  function DigitValue(c: char): (r: Option<nat>)
    ensures r.Some? <==> '0' <= c <= '9'
    ensures r.Some? ==> r.value < 10
  {
    if '0' <= c <= '9' then Some((c - '0') as nat) else None
  }

  /** `toString()` of a non-negative BigNumber: its decimal digits, most
      significant first, without leading zeros. */
  function ToDecimal(n: nat): (s: string)
    ensures |s| > 0
    ensures forall i :: 0 <= i < |s| ==> '0' <= s[i] <= '9'
  {
    if n < 10 then [DigitChar(n)] else ToDecimal(n / 10) + [DigitChar(n % 10)]
  }

  /** The value of a non-empty run of decimal digits; `None` if some
      character is not a digit. */
  function DigitsValue(s: string): (r: Option<nat>)
    requires |s| > 0
    decreases |s|
  {
    var last := DigitValue(s[|s| - 1]);
    if last.None? then None
    else if |s| == 1 then last
    else
      match DigitsValue(s[..|s| - 1])
      case None => None
      case Some(high) => Some(high * 10 + last.value)
  }

  /** `BigNumber.from(text)` on decimal text: an optional minus sign followed
      by at least one digit; anything else is rejected. */
  function FromDecimal(s: string): (r: Option<int>)
  {
    if |s| == 0 then None
    else if s[0] == '-' then
      if |s| == 1 then None
      else match DigitsValue(s[1..])
        case None => None
        case Some(v) => Some(-(v as int))
    else match DigitsValue(s)
      case None => None
      case Some(v) => Some(v as int)
  }

  lemma {:induction false} DigitsRoundTrip(n: nat)
    ensures DigitsValue(ToDecimal(n)) == Some(n)
  {
    var s := ToDecimal(n);
    if n >= 10 {
      DigitsRoundTrip(n / 10);
      assert s[..|s| - 1] == ToDecimal(n / 10);
      assert s[|s| - 1] == DigitChar(n % 10);
    } else {
      assert s == [DigitChar(n)];
    }
  }

  /** `BigNumber.from(b.toString())` gives back `b` for every balance. */
  lemma {:induction false} DecimalRoundTrip(n: nat)
    ensures FromDecimal(ToDecimal(n)) == Some(n as int)
  {
    DigitsRoundTrip(n);
    var s := ToDecimal(n);
    assert '0' <= s[0] <= '9';
  }

  // ---------------------------------------------------------------------
  // getTokenBalance

  /** The balance of `address` in the token at `tokenAddress`: the native
      balance for the sentinel address, the contract's `balanceOf` for any
      other address (compared exactly, character by character). The value
      read is passed through its decimal text form and parsed back, as the
      source does before returning it. */
  function GetTokenBalance(tokenAddress: string, provider: Provider, address: string): (r: nat)
    ensures tokenAddress == NativeToken ==> r == provider.getBalance(address)
    ensures tokenAddress != NativeToken ==> r == provider.balanceOf(tokenAddress, address)
  {
    var balance :=
      if tokenAddress == NativeToken then provider.getBalance(address)
      else provider.balanceOf(tokenAddress, address);
    DecimalRoundTrip(balance);
    FromDecimal(ToDecimal(balance)).value
  }

  // ---------------------------------------------------------------------
  // waitForBalanceChange

  /** The `k`-th poll's reading: the balance of `account` in `toToken` as the
      destination provider answers at that poll. */
  function PolledBalance(toToken: string, dstProvider: nat -> Provider, account: string, k: nat): nat
  {
    GetTokenBalance(toToken, dstProvider(k), account)
  }

  /** Polls the destination balance at most `iterations` times and stops at
      the first reading strictly above `destPreBal`. Returns the last reading
      taken (0 when none was taken) and the number of readings taken. */
  method WaitForBalanceChange(
    iterations: int, toToken: string, dstProvider: nat -> Provider,
    account: string, destPreBal: nat)
    returns (destPostBal: nat, polls: nat)
    ensures iterations <= 0 ==> polls == 0 && destPostBal == 0
    ensures iterations > 0 ==> 0 < polls <= iterations
    ensures polls > 0 ==> destPostBal == PolledBalance(toToken, dstProvider, account, polls - 1)
    ensures forall k :: 0 <= k < polls - 1 ==>
      PolledBalance(toToken, dstProvider, account, k) <= destPreBal
    ensures 0 < polls < iterations ==> destPostBal > destPreBal
    ensures destPostBal > destPreBal <==>
      exists k :: 0 <= k < iterations && PolledBalance(toToken, dstProvider, account, k) > destPreBal
  {
    destPostBal := 0;
    polls := 0;
    var index := 0;
    while index < iterations
      invariant 0 <= index && (index <= iterations || index == 0)
      invariant polls == index
      invariant forall k :: 0 <= k < index ==>
        PolledBalance(toToken, dstProvider, account, k) <= destPreBal
      invariant index > 0 ==> destPostBal == PolledBalance(toToken, dstProvider, account, index - 1)
      invariant index == 0 ==> destPostBal == 0
      decreases iterations - index
    {
      destPostBal := GetTokenBalance(toToken, dstProvider(index), account);
      polls := polls + 1;
      if destPostBal > destPreBal {
        return;
      }
      index := index + 1;
    }
  }
}
