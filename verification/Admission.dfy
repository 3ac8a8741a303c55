/** The shoot validator: the extension may only be enabled for evaluation shoots. */
module Admission {
  import opened Wrappers

  const EXTENSION_TYPE := "shoot-traefik"
  const EVALUATION := "evaluation"

  /** `disabled` is an optional flag: unset, false or true. */
  datatype Extension = Extension(kind: string, disabled: Option<bool>)

  datatype Verdict = Admitted | Denied(currentPurpose: string)

  /** `i` is the first entry of the extension's type. */
  ghost predicate FirstOfType(extensions: seq<Extension>, i: nat) {
    && i < |extensions| && extensions[i].kind == "shoot-traefik"
    && forall j :: 0 <= j < i ==> extensions[j].kind != "shoot-traefik"
  }

  /** The flag is unset or false. */
  predicate FlagOff(e: Extension) {
    e.disabled == None || e.disabled == Some(false)
  }

  /** The first entry of the type, if there is one, has its flag off. */
  ghost predicate Enabled(extensions: seq<Extension>) {
    exists i: nat :: FirstOfType(extensions, i) && FlagOff(extensions[i])
  }

  /** The loop as written: the first entry of the type decides, and what follows it is not looked at. */
  method ValidateShoot(extensions: seq<Extension>, purpose: Option<string>) returns (v: Verdict)
    ensures v.Denied? <==>
            && (exists i: nat :: FirstOfType(extensions, i) && extensions[i].disabled in {None, Some(false)})
            && purpose != Some("evaluation")
    ensures v.Denied? ==> v.currentPurpose == if purpose.Some? then purpose.value else "nil"
    ensures v.Denied? <==> Enabled(extensions) && purpose != Some("evaluation")
  {
    var hasTraefikExtension := false;
    for i := 0 to |extensions|
      invariant !hasTraefikExtension
      invariant forall j :: 0 <= j < i ==> extensions[j].kind != EXTENSION_TYPE
    {
      if extensions[i].kind == EXTENSION_TYPE {
        assert FirstOfType(extensions, i);
        if extensions[i].disabled.Some? && extensions[i].disabled.value {
          return Admitted;
        }
        hasTraefikExtension := true;
        break;
      }
    }
    if !hasTraefikExtension {
      return Admitted;
    }
    if purpose != Some(EVALUATION) {
      var purposeStr := "nil";
      if purpose.Some? {
        purposeStr := purpose.value;
      }
      return Denied(purposeStr);
    }
    return Admitted;
  }

  lemma FlagDecidesOnlyByValue(a: seq<Extension>, b: seq<Extension>)
    requires |a| == |b| && Enabled(a)
    requires forall j :: 0 <= j < |a| ==> a[j].kind == b[j].kind && (FlagOff(a[j]) ==> FlagOff(b[j]))
    ensures Enabled(b)
  {
    var i: nat :| FirstOfType(a, i) && FlagOff(a[i]);
    assert FirstOfType(b, i);
  }

  /** Leaving the flag of an entry unset is the same as setting it to false, at every position. */
  lemma UnsetMeansFalse(extensions: seq<Extension>, i: nat)
    requires i < |extensions|
    ensures var unset := extensions[i := extensions[i].(disabled := None)];
            var off := extensions[i := extensions[i].(disabled := Some(false))];
            Enabled(unset) <==> Enabled(off)
  {
    var unset := extensions[i := extensions[i].(disabled := None)];
    var off := extensions[i := extensions[i].(disabled := Some(false))];
    if Enabled(unset) {
      FlagDecidesOnlyByValue(unset, off);
    }
    if Enabled(off) {
      FlagDecidesOnlyByValue(off, unset);
    }
  }

  ghost predicate TypesUnique(extensions: seq<Extension>) {
    forall i, j :: 0 <= i < j < |extensions| ==> extensions[i].kind != extensions[j].kind
  }

  lemma {:induction false} SomeFirstOfType(extensions: seq<Extension>, k: nat) returns (i: nat)
    requires k < |extensions| && extensions[k].kind == EXTENSION_TYPE
    ensures FirstOfType(extensions, i) && i <= k
  {
    if j: nat :| j < k && extensions[j].kind == EXTENSION_TYPE {
      i := SomeFirstOfType(extensions, j);
    } else {
      i := k;
    }
  }

  /** With unique types the order does not matter: enabled means that some entry of the type has its flag off. */
  lemma EnabledByAnyEntry(extensions: seq<Extension>)
    requires TypesUnique(extensions)
    ensures Enabled(extensions) <==> exists e :: e in extensions && e.kind == EXTENSION_TYPE && FlagOff(e)
  {
    if e :| e in extensions && e.kind == EXTENSION_TYPE && FlagOff(e) {
      var k: nat :| k < |extensions| && extensions[k] == e;
      var i := SomeFirstOfType(extensions, k);
      assert i == k;
    }
  }

  /** Without uniqueness a disabled entry shadows every later enabled one. */
  lemma DisabledEntryShadows(before: seq<Extension>, e: Extension, after: seq<Extension>)
    requires e.kind == EXTENSION_TYPE && e.disabled == Some(true)
    requires forall b :: b in before ==> b.kind != EXTENSION_TYPE
    ensures !Enabled(before + [e] + after)
  {
    var all := before + [e] + after;
    assert all[|before|] == e;
    assert forall j :: 0 <= j < |before| ==> all[j] == before[j];
    assert forall i: nat :: FirstOfType(all, i) ==> i == |before|;
  }
}
