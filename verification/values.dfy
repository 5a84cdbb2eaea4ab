/** Raw action options as the action handler sees them, and the two
    coercions it applies to them: integer parsing (getOptInt) and boolean
    truthiness (getOptBool). */
module Values {

  datatype Option<+T> = None | Some(value: T)

  /** The result of JavaScript's parseInt(_, 10): an integer or NaN. The
      double-precision range of JavaScript numbers is not modelled. */
  datatype Num = Int(value: int) | NaN

  /** One raw option value, reduced to the three things the handler looks at:
      its text when the value is a string (the handler compares options with
      `===` against string literals), what parseInt makes of it, and whether
      it is truthy. How parseInt reads a string is not modelled; `parsed`
      records its outcome. */
  datatype Raw = Raw(text: Option<string>, parsed: Num, truthy: bool)

  /** The flat option map of one action invocation. */
  type OptionMap = map<string, Raw>

  /** A key the host did not supply reads as `undefined`: it is not a string,
      parses to NaN and is falsy. */
  const Undefined: Raw := Raw(None, NaN, false)

  function Get(opt: OptionMap, key: string): Raw
  {
    if key in opt then opt[key] else Undefined
  }

  /** `opt.key === s` for a string literal `s`. */
  predicate TextIs(opt: OptionMap, key: string, s: string)
  {
    Get(opt, key).text == Some(s)
  }

  /** getOptBool: `!!opt[key]`; it never fails, and a missing key reads as
      false. */
  function OptBool(opt: OptionMap, key: string): (b: bool)
    ensures key !in opt ==> !b
    ensures key in opt ==> (b <==> opt[key].truthy)
  {
    Get(opt, key).truthy
  }

  /** The outcome of getOptInt: the integer, or the "Invalid option" error
      naming the key whose value is not a number. */
  datatype Parsed<+T> = Parsed(value: T) | Invalid(key: string)

  /** getOptInt: parse the option, throwing when the result is NaN. A missing
      key is rejected like a malformed one. */
  function OptInt(opt: OptionMap, key: string): (r: Parsed<int>)
    ensures r.Parsed? <==> Get(opt, key).parsed.Int?
    ensures r.Parsed? ==> Get(opt, key).parsed == Int(r.value)
    ensures r.Invalid? ==> r.key == key
    ensures key !in opt ==> r == Invalid(key)
  {
    match Get(opt, key).parsed
    case Int(n) => Parsed(n)
    case NaN => Invalid(key)
  }

  /** Every key before position `n` parses to an integer. */
  predicate ParsesBefore(opt: OptionMap, keys: seq<string>, n: int)
    requires n <= |keys|
  {
    forall j :: 0 <= j < n ==> Get(opt, keys[j]).parsed.Int?
  }

  /** A run of getOptInt calls evaluated left to right, as JavaScript
      evaluates the arguments of one call: either every key parses, or the
      first key that does not parse is the one reported and the rest are
      never looked at. */
  function OptInts(opt: OptionMap, keys: seq<string>): (r: Parsed<seq<int>>)
    ensures r.Parsed? ==> |r.value| == |keys|
    ensures r.Parsed? ==> forall i :: 0 <= i < |keys| ==> Get(opt, keys[i]).parsed == Int(r.value[i])
    ensures r.Invalid? ==>
              exists i :: 0 <= i < |keys| && keys[i] == r.key && Get(opt, keys[i]).parsed == NaN
                          && ParsesBefore(opt, keys, i)
    ensures r.Parsed? <==> ParsesBefore(opt, keys, |keys|)
  {
    if |keys| == 0 then Parsed([])
    else
      match OptInt(opt, keys[0])
      case Invalid(k) =>
        assert ParsesBefore(opt, keys, 0);
        Invalid(k)
      case Parsed(v) =>
        match OptInts(opt, keys[1..])
        case Invalid(k) =>
          var i :| 0 <= i < |keys[1..]| && keys[1..][i] == k && Get(opt, keys[1..][i]).parsed == NaN
                   && ParsesBefore(opt, keys[1..], i);
          assert keys[i + 1] == k && ParsesBefore(opt, keys, i + 1);
          Invalid(k)
        case Parsed(vs) => Parsed([v] + vs)
  }

  /** Parsing two runs of keys one after the other is parsing their
      concatenation: the second run is looked at only when the first parses
      in full, and the first failure over both runs is the one reported. */
  lemma {:induction false} OptIntsAppend(opt: OptionMap, a: seq<string>, b: seq<string>)
    ensures OptInts(opt, a + b) ==
              match OptInts(opt, a)
              case Invalid(k) => Invalid(k)
              case Parsed(va) =>
                (match OptInts(opt, b)
                 case Invalid(k) => Invalid(k)
                 case Parsed(vb) => Parsed(va + vb))
    decreases |a|
  {
    if |a| == 0 {
      assert a + b == b;
      match OptInts(opt, b)
      case Invalid(_) =>
      case Parsed(vb) => assert [] + vb == vb;
    } else {
      assert (a + b)[0] == a[0];
      assert (a + b)[1..] == a[1..] + b;
      OptIntsAppend(opt, a[1..], b);
      match OptInt(opt, a[0])
      case Invalid(_) =>
      case Parsed(v) =>
        match OptInts(opt, a[1..])
        case Invalid(_) =>
        case Parsed(va) =>
          match OptInts(opt, b)
          case Invalid(_) =>
          case Parsed(vb) => assert [v] + (va + vb) == ([v] + va) + vb;
    }
  }
}
