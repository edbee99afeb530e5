/** The password generator: the character pool built from four classes, and `length` draws from it
    driven by the random source. */
module PasswordGenerator {

  const Upper := "ABCDEFGHIJKLMNOPQRSTUVWXYZ"
  const Lower := "abcdefghijklmnopqrstuvwxyz"
  const Digits := "0123456789"
  const Symbols := "!@#$%^&*()_+~`|}{[]:;?><,./-="

  const MinLength := 6
  const MaxLength := 50
  const DefaultLength := 16

  datatype Options = Options(uppercase: bool, lowercase: bool, numbers: bool, symbols: bool)

  const AllOn := Options(true, true, true, true)

  datatype CharClass = UpperCase | LowerCase | Numbers | SymbolChars

  /** The enabled classes, concatenated in the order upper, lower, digits, symbols. */
  function Pool(o: Options): string
  {
    (if o.uppercase then Upper else "") + (if o.lowercase then Lower else "")
      + (if o.numbers then Digits else "") + (if o.symbols then Symbols else "")
  }

  /** A character is in the pool exactly when one of the enabled classes holds it, and the pool
      is empty exactly when no class is enabled. */
  lemma PoolContents(o: Options, c: char)
    ensures c in Pool(o) <==>
      (o.uppercase && c in Upper) || (o.lowercase && c in Lower)
      || (o.numbers && c in Digits) || (o.symbols && c in Symbols)
    ensures Pool(o) == "" <==> !o.uppercase && !o.lowercase && !o.numbers && !o.symbols
  {
  }

  /** The pool's size: 26 per letter case, 10 digits and 29 symbols, 91 with every class on. */
  lemma PoolSize(o: Options)
    ensures |Pool(o)| == (if o.uppercase then 26 else 0) + (if o.lowercase then 26 else 0)
      + (if o.numbers then 10 else 0) + (if o.symbols then 29 else 0)
    ensures |Pool(AllOn)| == 91
  {
  }

  /** `Math.floor(r * n)` for a draw `r` of `Math.random`, which lies in [0, 1). */
  function PickIndex(r: real, n: nat): (i: nat)
    requires 0.0 <= r < 1.0 && n > 0
    ensures i < n
    ensures i as real <= r * n as real < i as real + 1.0
  {
    var x := r * n as real;
    ScaledDrawBelow(r, n);
    FloorBelow(x, n);
    x.Floor
  }

  /** A draw in [0, 1) scaled by a positive `n` lies in [0, n). */
  lemma ScaledDrawBelow(r: real, n: nat)
    requires 0.0 <= r < 1.0 && n > 0
    ensures 0.0 <= r * n as real < n as real
  {
    var m := n as real;
    assert m > 0.0;
    assert (1.0 - r) * m > 0.0;
    assert m - r * m == (1.0 - r) * m;
  }

  /** The floor of a value below the integer `n` is below `n`. */
  lemma FloorBelow(x: real, n: nat)
    requires 0.0 <= x < n as real
    ensures 0 <= x.Floor < n
  {
    assert x.Floor as real <= x;
  }

  predicate Draws(randoms: seq<real>)
  {
    forall k :: 0 <= k < |randoms| ==> 0.0 <= randoms[k] < 1.0
  }

  /** The generation loop: `length` characters, the `i`-th at the pool position the `i`-th draw
      selects. */
  method DrawPassword(pool: string, length: nat, randoms: seq<real>) returns (result: string)
    requires pool != "" && Draws(randoms) && |randoms| >= length
    ensures |result| == length
    ensures forall i :: 0 <= i < length ==> result[i] == pool[PickIndex(randoms[i], |pool|)]
    ensures forall i :: 0 <= i < length ==> result[i] in pool
  {
    result := "";
    var i := 0;
    while i < length
      invariant 0 <= i <= length
      invariant |result| == i
      invariant forall k :: 0 <= k < i ==> result[k] == pool[PickIndex(randoms[k], |pool|)]
    {
      result := result + [pool[PickIndex(randoms[i], |pool|)]];
      i := i + 1;
    }
  }

  class PasswordGeneratorPage {
    var length: nat
    var options: Options
    var password: string
    var copied: bool

    /** The slider keeps the length within 6..50. */
    ghost predicate Valid()
      reads this
    {
      MinLength <= length <= MaxLength
    }

    constructor ()
      ensures length == DefaultLength && options == AllOn && password == "" && !copied
      ensures Valid()
    {
      length := DefaultLength;
      options := AllOn;
      password := "";
      copied := false;
    }

    /** The slider's `onChange`. */
    method SetLength(v: nat)
      requires MinLength <= v <= MaxLength
      modifies this`length
      ensures length == v && Valid()
    {
      length := v;
    }

    /** A toggle: exactly one option flips. */
    method Toggle(c: CharClass)
      modifies this`options
      ensures c == UpperCase ==> options == old(options).(uppercase := !old(options).uppercase)
      ensures c == LowerCase ==> options == old(options).(lowercase := !old(options).lowercase)
      ensures c == Numbers ==> options == old(options).(numbers := !old(options).numbers)
      ensures c == SymbolChars ==> options == old(options).(symbols := !old(options).symbols)
    {
      match c {
        case UpperCase => options := options.(uppercase := !options.uppercase);
        case LowerCase => options := options.(lowercase := !options.lowercase);
        case Numbers => options := options.(numbers := !options.numbers);
        case SymbolChars => options := options.(symbols := !options.symbols);
      }
    }

    /** `generate`, run on mount and by the button. With no class enabled nothing changes;
        otherwise the password is `length` draws from the pool and `copied` is reset. */
    method Generate(randoms: seq<real>)
      requires Draws(randoms) && |randoms| >= length
      modifies this`password, this`copied
      ensures Pool(options) == "" ==> password == old(password) && copied == old(copied)
      ensures Pool(options) != "" ==>
        && |password| == length && !copied
        && (forall i :: 0 <= i < length ==> password[i] == Pool(options)[PickIndex(randoms[i], |Pool(options)|)])
        && (forall i :: 0 <= i < length ==> password[i] in Pool(options))
    {
      var o := options;
      var chars := "";
      if o.uppercase { chars := chars + Upper; }
      assert chars == (if o.uppercase then Upper else "");
      if o.lowercase { chars := chars + Lower; }
      assert chars == (if o.uppercase then Upper else "") + (if o.lowercase then Lower else "");
      if o.numbers { chars := chars + Digits; }
      assert chars == (if o.uppercase then Upper else "") + (if o.lowercase then Lower else "")
        + (if o.numbers then Digits else "");
      if o.symbols { chars := chars + Symbols; }
      assert chars == Pool(o);
      if chars == "" {
        return;
      }
      password := DrawPassword(chars, length, randoms);
      copied := false;
    }

    /** The copy button marks the password as copied (the clipboard write is not modelled). */
    method Copy()
      modifies this`copied
      ensures copied
    {
      copied := true;
    }

    /** The two-second timer after a copy. */
    method CopyTimerFires()
      modifies this`copied
      ensures !copied
    {
      copied := false;
    }
  }
}
