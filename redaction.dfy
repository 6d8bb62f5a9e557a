/** The display copy (`safe_args`) of a Celery task's argument list, with the secret
    tokens masked, as built in iib/web/api_v1.py.  The copy is an array edited in place
    by index; the submitted list is a value and so is never affected. */
module Redaction {
  import opened Wrappers
  import opened Json

  const Mask := Str("*****")

  /** The position `list.index(x)` reports: the first element equal to `x`, or `|s|`
      when there is none. */
  function FirstIndex(s: seq<Value>, x: Value): (i: nat)
    ensures i <= |s|
    ensures i < |s| ==> s[i] == x
    ensures i == |s| ==> x !in s
    ensures forall j :: 0 <= j < i ==> s[j] != x
  {
    if s == [] then 0
    else if s[0] == x then 0
    else 1 + FirstIndex(s[1..], x)
  }

  /** `s[s.index(x)] = '*****'`, which raises ValueError when `x` is not in `s`. */
  function MaskFirst(s: seq<Value>, x: Value): (r: Result<seq<Value>, Error>)
    ensures r.Success? <==> x in s
    ensures r.Failure? ==> r.error == Crash("ValueError")
    ensures r.Success? ==> |r.value| == |s|
    ensures r.Success? ==> forall k :: 0 <= k < |s| ==>
              r.value[k] == (if k == FirstIndex(s, x) then Mask else s[k])
  {
    var i := FirstIndex(s, x);
    if i < |s| then Success(s[i := Mask]) else Failure(Crash("ValueError"))
  }

  /** The display copy: first the CNR token, then the overwrite token, each masked
      at its first occurrence when it is truthy. */
  function Redacted(args: seq<Value>, cnrToken: Value, overwriteToken: Value): (r: Result<seq<Value>, Error>)
    ensures r.Success? ==> |r.value| == |args|
    ensures r.Success? ==> forall k :: 0 <= k < |args| ==> r.value[k] == args[k] || r.value[k] == Mask
    ensures !Truthy(cnrToken) && !Truthy(overwriteToken) ==> r == Success(args)
    ensures Truthy(cnrToken) && cnrToken !in args ==> r.Failure?
    ensures r.Success? && Truthy(cnrToken) ==> r.value[FirstIndex(args, cnrToken)] == Mask
    // With two different tokens, neither of them the mask itself, each truthy token is masked
    // at its own first occurrence, every other slot shows its argument, and the copy can be
    // built exactly when every truthy token is among the arguments.
    ensures overwriteToken != cnrToken && overwriteToken != Mask ==>
      && (r.Success? <==> (Truthy(cnrToken) ==> cnrToken in args) && (Truthy(overwriteToken) ==> overwriteToken in args))
      && (r.Success? ==> forall k :: 0 <= k < |args| ==>
            r.value[k] == if (Truthy(cnrToken) && k == FirstIndex(args, cnrToken))
                             || (Truthy(overwriteToken) && k == FirstIndex(args, overwriteToken))
                          then Mask else args[k])
  {
    var afterCnr := if Truthy(cnrToken) then MaskFirst(args, cnrToken) else Success(args);
    match afterCnr
    case Failure(e) => Failure(e)
    case Success(s) => if Truthy(overwriteToken) then MaskFirst(s, overwriteToken) else Success(s)
  }

  /** `lst.index(x)` on a list held in an array, `None` standing for the ValueError. */
  method IndexOf(a: array<Value>, x: Value) returns (r: Option<nat>)
    ensures r.Some? ==> r.value < a.Length && a[r.value] == x
    ensures r.Some? ==> forall j :: 0 <= j < r.value ==> a[j] != x
    ensures r.None? <==> x !in a[..]
  {
    var i := 0;
    while i < a.Length
      invariant 0 <= i <= a.Length
      invariant forall j :: 0 <= j < i ==> a[j] != x
    {
      if a[i] == x {
        return Some(i);
      }
      i := i + 1;
    }
    assert forall j :: 0 <= j < a.Length ==> a[..][j] != x;
    return None;
  }

  /** The index `IndexOf` finds is the one `FirstIndex` names. */
  lemma {:induction false} FirstIndexUnique(s: seq<Value>, x: Value, i: nat)
    requires i < |s| && s[i] == x
    requires forall j :: 0 <= j < i ==> s[j] != x
    ensures FirstIndex(s, x) == i
  {
    if i > 0 {
      FirstIndexUnique(s[1..], x, i - 1);
    }
  }

  /** `safe_args = copy.copy(args)` followed by the two guarded index assignments. */
  method RedactTokens(args: seq<Value>, cnrToken: Value, overwriteToken: Value)
    returns (r: Result<seq<Value>, Error>)
    ensures r == Redacted(args, cnrToken, overwriteToken)
  {
    var safe := new Value[|args|](k requires 0 <= k < |args| => args[k]);
    assert safe[..] == args;
    if Truthy(cnrToken) {
      var k := IndexOf(safe, cnrToken);
      if k.None? {
        return Failure(Crash("ValueError"));
      }
      FirstIndexUnique(safe[..], cnrToken, k.value);
      safe[k.value] := Mask;
      assert safe[..] == args[k.value := Mask];
    }
    ghost var afterCnr := safe[..];
    if Truthy(overwriteToken) {
      var k := IndexOf(safe, overwriteToken);
      if k.None? {
        return Failure(Crash("ValueError"));
      }
      FirstIndexUnique(safe[..], overwriteToken, k.value);
      safe[k.value] := Mask;
      assert safe[..] == afterCnr[k.value := Mask];
    }
    r := Success(safe[..]);
  }

  /** A token that equals an earlier argument masks that argument instead, and its own
      slot in the display copy still shows the secret. */
  lemma {:induction false} EarlierEqualArgumentLeaksToken(args: seq<Value>, cnrToken: Value, j: nat, slot: nat)
    requires j < slot < |args|
    requires Truthy(cnrToken) && args[j] == cnrToken && args[slot] == cnrToken
    ensures Redacted(args, cnrToken, Null).Success?
    ensures Redacted(args, cnrToken, Null).value[slot] == cnrToken
  {
    var i := FirstIndex(args, cnrToken);
    assert i <= j;
  }
}
