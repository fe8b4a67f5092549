/** The values that sit in the slots of the three window lists of main.py
    (raw samples, period averages, blinks), and the identity test that tells
    real data apart from the "window ready" marker kept in each list's last slot. */
module Slots {

  /** The exceptions the statistics helpers and the loop body can raise. */
  datatype Error =
    | InsufficientData  // ValueError from mean/stddev on too few data points
    | NotANumber        // TypeError from sum() over a value that is not a number
    | NotABlink         // AttributeError from get_duration() on a value that is not a Blink

  datatype Result<T> = Ok(value: T) | Err(error: Error)

  datatype Option<T> = None | Some(value: T)

  /** A closed blink, as its start and end readings of the monotonic clock. */
  datatype BlinkRecord = BlinkRecord(start: real, end: real) {
    /** get_duration: never negative for a blink that ended no earlier than it started. */
    function Duration(): (d: real)
      ensures start + d == end
      ensures start <= end ==> d >= 0.0
    {
      end - start
    }
  }

  /** One element of a window list: Python's None, a float sample, an int
      marker (the lists' ready flag, 0 or 1), or a closed Blink. */
  datatype Slot =
    | Unset
    | Sample(volts: real)
    | Flag(bit: int)
    | Stored(blink: BlinkRecord)

  /** is_not_None_or_int: an identity test against None and the ints 0 and 1.
      A float never is the int 0 or 1, so Sample(0.0) and Sample(1.0) are data. */
  predicate IsData(s: Slot): (b: bool)
    ensures b <==> s != Unset && s != Flag(0) && s != Flag(1)
  {
    match s
    case Unset => false
    case Flag(k) => k != 0 && k != 1
    case _ => true
  }

  /** Python truthiness of a list element, as tested by `if series[-1]:`. */
  predicate Truthy(s: Slot) {
    match s
    case Unset => false
    case Sample(v) => v != 0.0
    case Flag(k) => k != 0
    case Stored(_) => true
  }

  /** list(filter(is_not_None_or_int, s)): the data slots of s, in order. */
  function Filter(s: seq<Slot>): (r: seq<Slot>)
    ensures |r| <= |s|
  {
    if s == [] then []
    else (if IsData(s[0]) then [s[0]] else []) + Filter(s[1..])
  }

  /** Filter keeps exactly the data slots: everything it returns is data
      from s, and every data slot of s is among what it returns. */
  lemma {:induction false} FilterMembership(s: seq<Slot>)
    ensures forall x :: x in Filter(s) <==> x in s && IsData(x)
  {
    if s != [] {
      FilterMembership(s[1..]);
      assert s == [s[0]] + s[1..];
    }
  }

  lemma {:induction false} FilterAppend(a: seq<Slot>, b: seq<Slot>)
    ensures Filter(a + b) == Filter(a) + Filter(b)
  {
    if a == [] {
      assert a + b == b;
    } else {
      var head := if IsData(a[0]) then [a[0]] else [];
      assert (a + b)[1..] == a[1..] + b;
      FilterAppend(a[1..], b);
      calc {
        Filter(a + b);
        head + Filter(a[1..] + b);
        head + (Filter(a[1..]) + Filter(b));
        (head + Filter(a[1..])) + Filter(b);
        Filter(a) + Filter(b);
      }
    }
  }

  /** Filtering a list that holds only data leaves it as it is. */
  lemma {:induction false} FilterKeepsData(s: seq<Slot>)
    requires forall i :: 0 <= i < |s| ==> IsData(s[i])
    ensures Filter(s) == s
  {
    if s != [] {
      FilterKeepsData(s[1..]);
    }
  }

  /** Filtering a list of None and int markers leaves nothing. */
  lemma {:induction false} FilterDropsMarkers(s: seq<Slot>)
    requires forall i :: 0 <= i < |s| ==> !IsData(s[i])
    ensures Filter(s) == []
  {
    if s != [] {
      FilterDropsMarkers(s[1..]);
    }
  }

  /** How sum() sees one slot: floats and ints are numbers, None and Blinks are not. */
  function Number(s: Slot): Result<real> {
    match s
    case Sample(v) => Ok(v)
    case Flag(k) => Ok(k as real)
    case _ => Err(NotANumber)
  }

  /** The numbers in s, or the TypeError sum() raises on its first non-number. */
  function Numbers(s: seq<Slot>): (r: Result<seq<real>>)
    ensures r.Ok? <==> forall i :: 0 <= i < |s| ==> Number(s[i]).Ok?
    ensures r.Ok? ==> |r.value| == |s| && forall i :: 0 <= i < |s| ==> r.value[i] == Number(s[i]).value
    ensures r.Err? ==> r.error == NotANumber
  {
    if s == [] then Ok([])
    else
      match Number(s[0])
      case Err(e) => Err(e)
      case Ok(x) =>
        match Numbers(s[1..])
        case Err(e) => Err(e)
        case Ok(xs) => Ok([x] + xs)
  }
}
