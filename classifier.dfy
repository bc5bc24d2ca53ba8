/** Partitioning installations into per-platform buckets (`classifyInstallations`). */
module Classifier {
  import opened PushModel

  /** The key an installation is filed under: `pushType` when set, else `deviceType`. */
  function EffectivePushType(inst: Installation): string {
    if inst.pushType != "" then inst.pushType else inst.deviceType
  }

  /** The installation has a token and is filed under `pushType`. */
  predicate RoutedTo(inst: Installation, pushType: string) {
    inst.deviceToken != "" && EffectivePushType(inst) == pushType
  }

  /** The entry stored for an installation: only its token and app identifier. */
  function Entry(inst: Installation): Device {
    Device(inst.deviceToken, inst.appIdentifier, "")
  }

  /** The bucket for `pushType`: the entries of the installations routed to it, in input order. */
  function Bucket(insts: seq<Installation>, pushType: string): seq<Device>
    decreases |insts|
  {
    if insts == [] then []
    else
      var last := insts[|insts| - 1];
      Bucket(insts[..|insts| - 1], pushType) + (if RoutedTo(last, pushType) then [Entry(last)] else [])
  }

  /** The map classification returns: one bucket per valid push type. */
  function Classified(insts: seq<Installation>, validPushTypes: seq<string>): map<string, seq<Device>> {
    map k | k in validPushTypes :: Bucket(insts, k)
  }

  method ClassifyInstallations(installations: seq<Installation>, validPushTypes: seq<string>)
    returns (deviceMap: map<string, seq<Device>>)
    ensures deviceMap.Keys == set k | k in validPushTypes
    ensures forall k :: k in deviceMap ==> deviceMap[k] == Bucket(installations, k)
  {
    deviceMap := map[];
    for i := 0 to |validPushTypes|
      invariant deviceMap.Keys == set k | k in validPushTypes[..i]
      invariant forall k :: k in deviceMap ==> deviceMap[k] == []
    {
      deviceMap := deviceMap[validPushTypes[i] := []];
    }
    assert validPushTypes[..|validPushTypes|] == validPushTypes;

    for i := 0 to |installations|
      invariant deviceMap.Keys == set k | k in validPushTypes
      invariant forall k :: k in deviceMap ==> deviceMap[k] == Bucket(installations[..i], k)
    {
      var installation := installations[i];
      assert installations[..i + 1][..i] == installations[..i];
      if installation.deviceToken == "" {
        continue;
      }
      var pushType := if installation.pushType != "" then installation.pushType else installation.deviceType;
      if pushType in deviceMap {
        deviceMap := deviceMap[pushType := deviceMap[pushType] + [Entry(installation)]];
      }
    }
    assert installations[..|installations|] == installations;
  }

  /** Classification is stable: the bucket of a concatenation is the concatenation of the buckets. */
  lemma {:induction false} BucketAppend(a: seq<Installation>, b: seq<Installation>, pushType: string)
    ensures Bucket(a + b, pushType) == Bucket(a, pushType) + Bucket(b, pushType)
    decreases |b|
  {
    if b == [] {
      assert a + b == a;
    } else {
      var b' := b[..|b| - 1];
      assert (a + b)[..|a + b| - 1] == a + b';
      BucketAppend(a, b', pushType);
    }
  }

  /** An entry is in a bucket exactly when some installation routed there produced it. */
  lemma {:induction false} BucketMembership(insts: seq<Installation>, pushType: string, d: Device)
    ensures d in Bucket(insts, pushType) <==>
            exists i :: 0 <= i < |insts| && RoutedTo(insts[i], pushType) && d == Entry(insts[i])
    decreases |insts|
  {
    if insts != [] {
      var prefix := insts[..|insts| - 1];
      BucketMembership(prefix, pushType, d);
      if exists i :: 0 <= i < |insts| && RoutedTo(insts[i], pushType) && d == Entry(insts[i]) {
        var i :| 0 <= i < |insts| && RoutedTo(insts[i], pushType) && d == Entry(insts[i]);
        if i < |prefix| {
          assert prefix[i] == insts[i];
        }
      }
      if d in Bucket(prefix, pushType) {
        var i :| 0 <= i < |prefix| && RoutedTo(prefix[i], pushType) && d == Entry(prefix[i]);
        assert insts[i] == prefix[i];
      }
    }
  }

  /**
   * An installation without a token, or whose key is not a valid push type,
   * is dropped: removing it changes no bucket.
   */
  lemma DroppedInstallation(a: seq<Installation>, inst: Installation, b: seq<Installation>, validPushTypes: seq<string>)
    requires inst.deviceToken == "" || EffectivePushType(inst) !in validPushTypes
    ensures Classified(a + [inst] + b, validPushTypes) == Classified(a + b, validPushTypes)
  {
    forall k | k in validPushTypes
      ensures Bucket(a + [inst] + b, k) == Bucket(a + b, k)
    {
      BucketAppend(a + [inst], b, k);
      BucketAppend(a, [inst], k);
      BucketAppend(a, b, k);
      assert [inst][..0] == [];
    }
  }

  /** The number of installations with a token whose key is among `validPushTypes`. */
  function KeptCount(insts: seq<Installation>, validPushTypes: seq<string>): nat
    decreases |insts|
  {
    if insts == [] then 0
    else
      var last := insts[|insts| - 1];
      KeptCount(insts[..|insts| - 1], validPushTypes)
        + (if last.deviceToken != "" && EffectivePushType(last) in validPushTypes then 1 else 0)
  }

  /** The sum of the bucket sizes over `keys`. */
  function BucketSizes(insts: seq<Installation>, keys: seq<string>): nat
    decreases |keys|
  {
    if keys == [] then 0
    else BucketSizes(insts, keys[..|keys| - 1]) + |Bucket(insts, keys[|keys| - 1])|
  }

  /** How many of `keys` the installation is routed to. */
  function Hits(inst: Installation, keys: seq<string>): nat
    decreases |keys|
  {
    if keys == [] then 0
    else Hits(inst, keys[..|keys| - 1]) + (if RoutedTo(inst, keys[|keys| - 1]) then 1 else 0)
  }

  lemma {:induction false} HitsDistinct(inst: Installation, keys: seq<string>)
    requires Distinct(keys)
    ensures Hits(inst, keys) == if inst.deviceToken != "" && EffectivePushType(inst) in keys then 1 else 0
    decreases |keys|
  {
    if keys != [] {
      var prefix := keys[..|keys| - 1];
      HitsDistinct(inst, prefix);
      assert keys == prefix + [keys[|keys| - 1]];
      assert keys[|keys| - 1] !in prefix;
    }
  }

  lemma {:induction false} BucketSizesStep(insts: seq<Installation>, inst: Installation, keys: seq<string>)
    ensures BucketSizes(insts + [inst], keys) == BucketSizes(insts, keys) + Hits(inst, keys)
    decreases |keys|
  {
    if keys != [] {
      BucketSizesStep(insts, inst, keys[..|keys| - 1]);
      assert (insts + [inst])[..|insts|] == insts;
    }
  }

  /**
   * Completeness: over distinct push types, the buckets hold exactly as many
   * entries as there are installations with a token and an accepted key.
   */
  lemma {:induction false} ClassifiedTotal(insts: seq<Installation>, validPushTypes: seq<string>)
    requires Distinct(validPushTypes)
    ensures BucketSizes(insts, validPushTypes) == KeptCount(insts, validPushTypes)
    decreases |insts|
  {
    if insts == [] {
      BucketSizesEmpty(validPushTypes);
    } else {
      var prefix := insts[..|insts| - 1];
      var last := insts[|insts| - 1];
      ClassifiedTotal(prefix, validPushTypes);
      assert insts == prefix + [last];
      BucketSizesStep(prefix, last, validPushTypes);
      HitsDistinct(last, validPushTypes);
    }
  }

  lemma {:induction false} BucketSizesEmpty(keys: seq<string>)
    ensures BucketSizes([], keys) == 0
    decreases |keys|
  {
    if keys != [] {
      BucketSizesEmpty(keys[..|keys| - 1]);
    }
  }
}
