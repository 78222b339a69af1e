/** BIP 32 derivation paths: how they are printed, split, read and followed. Keys and their
    children are opaque. */
module HdWallet {
  import opened Prelude
  import opened Decimal

  const HARDENED := 0x8000_0000
  const UINT32 := 0x1_0000_0000

  // ----- reading a path

  /** The components completed so far and the one being collected. */
  datatype Split = Split(components: seq<string>, current: string)

  function Push(s: Split): Split {
    if s.current == "" then s else Split(s.components + [s.current], "")
  }

  function SplitAt(path: string): Split {
    if |path| == 0 then Split([], "")
    else
      var s, c := SplitAt(path[..|path| - 1]), path[|path| - 1];
      if c == '/' then Push(s) else Split(s.components, s.current + [c])
  }

  /** The parts of a path between slashes, empty ones left out. */
  function Components(path: string): seq<string> { Push(SplitAt(path)).components }

  /** The index a component stands for. A hardened index wraps around in 32 bits. */
  function ComponentIndex(component: string): Option<nat> {
    if |component| > 0 && component[|component| - 1] == '\''
    then match ScanUint32(component[..|component| - 1]) case None => None case Some(i) => Some((i + HARDENED) % UINT32)
    else ScanUint32(component)
  }

  type Child<!K> = (K, nat) -> Option<K>

  /** One derivation step per component; the first failure ends it. */
  function DeriveThrough<K>(key: K, components: seq<string>, child: Child<K>): Option<K> {
    if |components| == 0 then Some(key)
    else match ComponentIndex(components[0])
      case None => None
      case Some(i) => match child(key, i)
        case None => None
        case Some(k) => DeriveThrough(k, components[1..], child)
  }

  function Derive<K>(key: K, path: string, child: Child<K>): Option<K> {
    if |path| < 2 || path[..2] != "m/" then None else DeriveThrough(key, Components(path[2..]), child)
  }

  /** The first half of deriveKeyFromPath, character by character. */
  method SplitPath(path: string) returns (components: seq<string>)
    ensures components == Components(path)
  {
    var current: string := "";
    components := [];
    for i := 0 to |path|
      invariant Split(components, current) == SplitAt(path[..i])
    {
      assert path[..i + 1][..i] == path[..i];
      if path[i] == '/' {
        if current != "" {
          components := components + [current];
          current := "";
        }
      } else {
        current := current + [path[i]];
      }
    }
    assert path[..|path|] == path;
    if current != "" { components := components + [current]; }
  }

  /** The second half, component by component. */
  method FollowPath<K>(key: K, components: seq<string>, child: Child<K>) returns (r: Option<K>)
    ensures r == DeriveThrough(key, components, child)
  {
    var currentKey := key;
    for j := 0 to |components|
      invariant DeriveThrough(key, components, child) == DeriveThrough(currentKey, components[j..], child)
    {
      var component, hardened := components[j], false;
      if |component| > 0 && component[|component| - 1] == '\'' {
        hardened, component := true, component[..|component| - 1];
      }
      var index := ScanUint32(component);
      assert components[j..][0] == components[j] && components[j..][1..] == components[j + 1..];
      if index.None? { return None; }
      var n: nat := if hardened then (index.value + HARDENED) % UINT32 else index.value;
      assert ComponentIndex(components[j]) == Some(n);
      var childKey := child(currentKey, n);
      if childKey.None? { return None; }
      currentKey := childKey.value;
    }
    r := Some(currentKey);
  }

  /** deriveKeyFromPath. */
  method DeriveKeyFromPath<K>(key: K, path: string, child: Child<K>) returns (r: Option<K>)
    ensures r == Derive(key, path, child)
    ensures !("m/" <= path) ==> r == None
  {
    if |path| < 2 || path[..2] != "m/" { return None; }
    var components := SplitPath(path[2..]);
    r := FollowPath(key, components, child);
  }

  // ----- splitting

  /** Splitting continues where it stopped. */
  lemma {:induction false} SplitContinues(a: string, b: string)
    ensures var s, t := Push(SplitAt(a)), SplitAt(b);
            SplitAt(a + "/" + b) == Split(s.components + t.components, t.current)
  {
    var path := a + "/" + b;
    if |b| == 0 {
      assert path[..|path| - 1] == a && path[|path| - 1] == '/';
      assert Push(SplitAt(a)).components + [] == Push(SplitAt(a)).components;
    } else {
      var init := b[..|b| - 1];
      assert path[..|path| - 1] == a + "/" + init && path[|path| - 1] == b[|b| - 1];
      SplitContinues(a, init);
      var s, t := Push(SplitAt(a)), SplitAt(init);
      assert s.components + (t.components + [t.current]) == (s.components + t.components) + [t.current];
    }
  }

  /** Three laws that fix what splitting does: at a slash it distributes, a part without a
      slash stays whole, and an empty part disappears. */
  lemma ComponentsConcat(a: string, b: string)
    ensures Components(a + "/" + b) == Components(a) + Components(b)
  {
    SplitContinues(a, b);
    var s, t := Push(SplitAt(a)), SplitAt(b);
    assert s.components + (t.components + [t.current]) == (s.components + t.components) + [t.current];
  }

  lemma {:induction false} ComponentsOfPart(part: string)
    requires '/' !in part
    ensures SplitAt(part) == Split([], part)
    ensures Components(part) == if part == "" then [] else [part]
  {
    if |part| > 0 {
      ComponentsOfPart(part[..|part| - 1]);
      assert part == part[..|part| - 1] + [part[|part| - 1]];
    }
  }

  // ----- following a path

  lemma {:induction false} DeriveThroughConcat<K>(key: K, a: seq<string>, b: seq<string>, child: Child<K>)
    ensures DeriveThrough(key, a + b, child)
         == match DeriveThrough(key, a, child) case None => None case Some(k) => DeriveThrough(k, b, child)
  {
    if |a| == 0 {
      assert a + b == b;
    } else {
      assert (a + b)[1..] == a[1..] + b;
      var i := ComponentIndex(a[0]);
      if i.Some? && child(key, i.value).Some? {
        DeriveThroughConcat(child(key, i.value).value, a[1..], b, child);
      }
    }
  }

  /** Deriving along a path that continues another is deriving along the one and then,
      from the key reached, along the other: for all strings, well formed or not. */
  lemma DeriveComposes<K>(key: K, a: string, b: string, child: Child<K>)
    ensures Derive(key, "m/" + a + "/" + b, child)
         == match Derive(key, "m/" + a, child) case None => None case Some(k) => Derive(k, "m/" + b, child)
  {
    assert ("m/" + a + "/" + b)[2..] == a + "/" + b;
    assert ("m/" + a)[2..] == a && ("m/" + b)[2..] == b;
    assert ("m/" + a + "/" + b)[..2] == "m/" && ("m/" + a)[..2] == "m/" && ("m/" + b)[..2] == "m/";
    ComponentsConcat(a, b);
    DeriveThroughConcat(key, Components(a), Components(b), child);
  }

  // ----- printing a path

  datatype Level = Level(index: nat, hardened: bool)

  function PrintLevel(l: Level): string { PrintNat(l.index) + if l.hardened then "'" else "" }

  function Join(levels: seq<Level>): string {
    if |levels| == 0 then ""
    else if |levels| == 1 then PrintLevel(levels[0])
    else Join(levels[..|levels| - 1]) + "/" + PrintLevel(levels[|levels| - 1])
  }

  function PrintPath(levels: seq<Level>): string { "m/" + Join(levels) }

  /** The number BIP 32 gives a level. */
  function Number(l: Level): nat { if l.hardened then l.index + HARDENED else l.index }

  function Numbers(levels: seq<Level>): seq<nat> {
    seq(|levels|, i requires 0 <= i < |levels| => Number(levels[i]))
  }

  /** BIP 32 itself: child key derivation along a list of numbers. */
  function DeriveNumbers<K>(key: K, numbers: seq<nat>, child: Child<K>): Option<K> {
    if |numbers| == 0 then Some(key)
    else match child(key, numbers[0])
      case None => None
      case Some(k) => DeriveNumbers(k, numbers[1..], child)
  }

  lemma PrintedLevelPlain(l: Level)
    ensures '/' !in PrintLevel(l) && PrintLevel(l) != ""
    ensures PrintLevel(l)[|PrintLevel(l)| - 1] == '\'' <==> l.hardened
  {
    assert AllDigits(PrintNat(l.index));
  }

  /** Reading back a printed level, whatever the index. */
  lemma ReadPrintedLevel(l: Level)
    ensures ComponentIndex(PrintLevel(l)) == ReadLevel(l)
  {
    PrintedLevelPlain(l);
    ScanPrinted(l.index);
    var s := PrintLevel(l);
    if l.hardened {
      assert s[..|s| - 1] == PrintNat(l.index);
    } else {
      assert s == PrintNat(l.index);
    }
  }

  /** A level is read back as its number exactly when that number fits 32 bits. */
  lemma LevelRoundTripIff(l: Level)
    ensures ComponentIndex(PrintLevel(l)) == Some(Number(l)) <==> Number(l) < UINT32
  {
    hide ComponentIndex, PrintLevel;
    ReadPrintedLevel(l);
  }

  function PrintLevels(levels: seq<Level>): seq<string> {
    seq(|levels|, i requires 0 <= i < |levels| => PrintLevel(levels[i]))
  }

  lemma JoinSnoc(levels: seq<Level>, l: Level)
    requires |levels| > 0
    ensures Join(levels + [l]) == Join(levels) + "/" + PrintLevel(l)
  {
    hide PrintLevel;
    assert (levels + [l])[..|levels|] == levels;
  }

  lemma PrintLevelsSnoc(levels: seq<Level>, l: Level)
    ensures PrintLevels(levels + [l]) == PrintLevels(levels) + [PrintLevel(l)]
  {
    hide PrintLevel;
  }

  lemma {:induction false} PrintedComponents(levels: seq<Level>)
    ensures Components(Join(levels)) == PrintLevels(levels)
  {
    if |levels| == 1 {
      PrintedLevelPlain(levels[0]);
      ComponentsOfPart(PrintLevel(levels[0]));
    } else if |levels| > 1 {
      hide Components, SplitAt, Join, PrintLevel, PrintLevels;
      var init, last := levels[..|levels| - 1], levels[|levels| - 1];
      assert levels == init + [last];
      JoinSnoc(init, last);
      PrintLevelsSnoc(init, last);
      PrintedComponents(init);
      PrintedLevelPlain(last);
      ComponentsOfPart(PrintLevel(last));
      ComponentsConcat(Join(init), PrintLevel(last));
    }
  }

  predicate FitsUint32(levels: seq<Level>) {
    forall i :: 0 <= i < |levels| ==> Number(levels[i]) < UINT32
  }

  /** What the parser reads at a printed level: nothing past 32 bits, and a hardened index wraps. */
  function ReadLevel(l: Level): Option<nat> {
    if l.index >= UINT32 then None else if l.hardened then Some((l.index + HARDENED) % UINT32) else Some(l.index)
  }

  function ReadLevels(levels: seq<Level>): seq<Option<nat>> {
    seq(|levels|, i requires 0 <= i < |levels| => ReadLevel(levels[i]))
  }

  /** Derivation along what was read: the first failure ends it. */
  function DeriveRead<K>(key: K, indices: seq<Option<nat>>, child: Child<K>): Option<K> {
    if |indices| == 0 then Some(key)
    else match indices[0]
      case None => None
      case Some(i) => match child(key, i)
        case None => None
        case Some(k) => DeriveRead(k, indices[1..], child)
  }

  lemma {:induction false} DeriveThroughReads<K>(key: K, components: seq<string>, indices: seq<Option<nat>>, child: Child<K>)
    requires |components| == |indices|
    requires forall i :: 0 <= i < |components| ==> ComponentIndex(components[i]) == indices[i]
    ensures DeriveThrough(key, components, child) == DeriveRead(key, indices, child)
  {
    if |components| > 0 {
      assert ComponentIndex(components[0]) == indices[0];
      if indices[0].Some? && child(key, indices[0].value).Some? {
        DeriveThroughReads(child(key, indices[0].value).value, components[1..], indices[1..], child);
      }
    }
  }

  lemma {:induction false} DeriveReadsNumbers<K>(key: K, indices: seq<Option<nat>>, numbers: seq<nat>, child: Child<K>)
    requires |indices| == |numbers| && forall i :: 0 <= i < |indices| ==> indices[i] == Some(numbers[i])
    ensures DeriveRead(key, indices, child) == DeriveNumbers(key, numbers, child)
  {
    if |indices| > 0 && child(key, numbers[0]).Some? {
      DeriveReadsNumbers(child(key, numbers[0]).value, indices[1..], numbers[1..], child);
    }
  }

  /** Deriving along any printed path, whatever the indices. */
  lemma DerivePrinted<K>(key: K, levels: seq<Level>, child: Child<K>)
    ensures Derive(key, PrintPath(levels), child) == DeriveRead(key, ReadLevels(levels), child)
  {
    var path := PrintPath(levels);
    assert path[2..] == Join(levels) && path[..2] == "m/";
    PrintedComponents(levels);
    var components := Components(Join(levels));
    forall i | 0 <= i < |levels| ensures ComponentIndex(components[i]) == ReadLevels(levels)[i] {
      ReadPrintedLevel(levels[i]);
    }
    hide Components, Join, PrintLevels, ComponentIndex, ReadLevels;
    DeriveThroughReads(key, components, ReadLevels(levels), child);
  }

  /** Printing and parsing undo each other: deriving along a printed path derives exactly the
      listed numbers, for every list of levels whose numbers fit 32 bits (so for every index
      below 2^31, hardened or not). */
  lemma PathRoundTrip<K>(key: K, levels: seq<Level>, child: Child<K>)
    requires FitsUint32(levels)
    ensures Derive(key, PrintPath(levels), child) == DeriveNumbers(key, Numbers(levels), child)
  {
    hide Derive, PrintPath, DeriveRead, DeriveNumbers;
    DerivePrinted(key, levels, child);
    DeriveReadsNumbers(key, ReadLevels(levels), Numbers(levels), child);
  }

  /** A path of one part takes one step. */
  lemma DeriveOnePart<K>(key: K, part: string, child: Child<K>)
    requires '/' !in part && part != ""
    ensures Derive(key, "m/" + part, child)
         == match ComponentIndex(part) case None => None case Some(i) => child(key, i)
  {
    assert ("m/" + part)[2..] == part && ("m/" + part)[..2] == "m/";
    ComponentsOfPart(part);
    assert [part][1..] == [];
    hide SplitAt, ComponentIndex;
    var i := ComponentIndex(part);
    if i.Some? && child(key, i.value).Some? {
      assert DeriveThrough(child(key, i.value).value, [], child) == child(key, i.value);
    }
  }

  /** Past 2^31 a hardened level is silently read as a different, unhardened one. */
  lemma HardenedWraps<K>(key: K, child: Child<K>)
    ensures Derive(key, PrintPath([Level(HARDENED, true)]), child) == Derive(key, PrintPath([Level(0, false)]), child)
  {
    hide Derive, ComponentIndex, PrintLevel;
    var a, b := Level(HARDENED, true), Level(0, false);
    PrintedLevelPlain(a);
    PrintedLevelPlain(b);
    ReadPrintedLevel(a);
    ReadPrintedLevel(b);
    DeriveOnePart(key, PrintLevel(a), child);
    DeriveOnePart(key, PrintLevel(b), child);
  }

  // ----- the address lists

  /** `fmt.Sprintf("m/84'/0'/%d'/0/%d", account, i)` and its siblings: `prefix` is the text up to
      the account, `change` the text between account and index. */
  function AddressPath(prefix: string, account: int, change: string, i: nat): string {
    prefix + PrintInt(account) + change + PrintInt(i)
  }

  function AddressAt<K>(key: K, prefix: string, account: int, change: string, i: nat,
                        child: Child<K>, encode: K -> Option<string>): Option<string> {
    match Derive(key, AddressPath(prefix, account, change, i), child)
    case None => None
    case Some(k) => encode(k)
  }

  method DeriveAddressAtPath<K>(key: K, path: string, child: Child<K>, encode: K -> Option<string>) returns (r: Option<string>)
    ensures r == match Derive(key, path, child) case None => None case Some(k) => encode(k)
  {
    var derived := DeriveKeyFromPath(key, path, child);
    if derived.None? { return None; }
    r := encode(derived.value);
  }

  /** One of the two loops: addresses for the indices below the gap limit. */
  method DeriveBranch<K>(key: K, prefix: string, account: int, change: string, gapLimit: int,
                         child: Child<K>, encode: K -> Option<string>) returns (r: Option<seq<string>>)
    ensures r.Some? <==> forall i: nat :: i < gapLimit ==> AddressAt(key, prefix, account, change, i, child, encode).Some?
    ensures r.Some? ==> |r.value| == if gapLimit < 0 then 0 else gapLimit
    ensures r.Some? ==> forall i: nat :: i < |r.value| ==>
      AddressAt(key, prefix, account, change, i, child, encode) == Some(r.value[i])
  {
    hide Derive, AddressPath;
    var addresses: seq<string> := [];
    var i := 0;
    while i < gapLimit
      invariant 0 <= i && (i <= gapLimit || i == 0) && |addresses| == i
      invariant forall k: nat :: k < i ==> AddressAt(key, prefix, account, change, k, child, encode) == Some(addresses[k])
    {
      var address := DeriveAddressAtPath(key, AddressPath(prefix, account, change, i), child, encode);
      assert address == AddressAt(key, prefix, account, change, i, child, encode);
      if address.None? { return None; }
      addresses := addresses + [address.value];
      i := i + 1;
    }
    r := Some(addresses);
  }

  /** deriveBIP84Addresses and its siblings: the receive addresses, then the change addresses;
      all of them or an error. */
  method DeriveAddressList<K>(key: K, prefix: string, account: int, gapLimit: int,
                              child: Child<K>, encode: K -> Option<string>) returns (r: Option<seq<string>>)
    ensures r.Some? <==>
      (forall i: nat :: i < gapLimit ==> AddressAt(key, prefix, account, "'/0/", i, child, encode).Some?)
      && (forall i: nat :: i < gapLimit ==> AddressAt(key, prefix, account, "'/1/", i, child, encode).Some?)
    ensures r.Some? ==> |r.value| == if gapLimit < 0 then 0 else 2 * gapLimit
    ensures r.Some? ==> forall i: nat :: i < gapLimit ==>
      AddressAt(key, prefix, account, "'/0/", i, child, encode) == Some(r.value[i])
      && AddressAt(key, prefix, account, "'/1/", i, child, encode) == Some(r.value[gapLimit + i])
  {
    var receive := DeriveBranch(key, prefix, account, "'/0/", gapLimit, child, encode);
    if receive.None? { return None; }
    var change := DeriveBranch(key, prefix, account, "'/1/", gapLimit, child, encode);
    if change.None? { return None; }
    r := Some(receive.value + change.value);
  }

  datatype Encoders<!K> = Encoders(p2wpkh: K -> Option<string>, p2shP2wpkh: K -> Option<string>, p2pkh: K -> Option<string>)

  /** The purpose each scheme stands for. */
  function Purpose(scheme: string): Option<nat> {
    if scheme == "bip84" then Some(84) else if scheme == "bip49" then Some(49) else if scheme == "bip44" then Some(44) else None
  }

  function Encoder<K>(scheme: string, e: Encoders<K>): K -> Option<string> {
    if scheme == "bip84" then e.p2wpkh else if scheme == "bip49" then e.p2shP2wpkh else e.p2pkh
  }

  /** The levels of BIP 44: purpose', coin type 0', account', change, address index. */
  function Levels(purpose: nat, account: nat, change: nat, i: nat): seq<Level> {
    [Level(purpose, true), Level(0, true), Level(account, true), Level(change, false), Level(i, false)]
  }

  /** The address an account has at one branch and index, by BIP 32 and BIP 44 alone. */
  function AccountAddress<K>(key: K, purpose: nat, account: nat, change: nat, i: nat,
                             child: Child<K>, encode: K -> Option<string>): Option<string> {
    match DeriveNumbers(key, Numbers(Levels(purpose, account, change, i)), child)
    case None => None
    case Some(k) => encode(k)
  }

  lemma PrintedLevels(purpose: nat, account: nat, change: nat, i: nat)
    requires purpose < 100 && purpose >= 10 && change < 10
    ensures PrintPath(Levels(purpose, account, change, i))
         == AddressPath("m/" + PrintNat(purpose) + "'/0'/", account, "'/" + PrintNat(change) + "/", i)
  {
    var l := Levels(purpose, account, change, i);
    PrintedLevel(l[0]);
    PrintedLevel(l[1]);
    PrintedLevel(l[2]);
    PrintedLevel(l[3]);
    PrintedLevel(l[4]);
    assert PrintNat(0) == "0";
    assert Join([l[0]]) == PrintLevel(l[0]);
    hide PrintNat, PrintLevel, Join;
    assert [l[0]] + [l[1]] == [l[0], l[1]] && [l[0], l[1]] + [l[2]] == [l[0], l[1], l[2]];
    assert [l[0], l[1], l[2]] + [l[3]] == [l[0], l[1], l[2], l[3]];
    JoinSnoc([l[0]], l[1]);
    JoinSnoc([l[0], l[1]], l[2]);
    JoinSnoc([l[0], l[1], l[2]], l[3]);
    JoinSnoc([l[0], l[1], l[2], l[3]], l[4]);
    assert l == [l[0], l[1], l[2], l[3]] + [l[4]];
    PathText(PrintNat(purpose), PrintNat(account), PrintNat(change), PrintNat(i));
  }

  lemma PathText(p: string, a: string, c: string, i: string)
    ensures "m/" + (((((p + "'") + "/" + ("0" + "'")) + "/" + (a + "'")) + "/" + c) + "/" + i)
         == ("m/" + p + "'/0'/") + a + ("'/" + c + "/") + i
  {
    assert "'/0'/" == "'" + "/" + "0" + "'" + "/" && "'/" == "'" + "/";
    assert "m/" + p + "'/0'/" == "m/" + p + "'" + "/" + "0" + "'" + "/";
  }

  lemma PrintedLevel(l: Level)
    ensures PrintLevel(l) == if l.hardened then PrintNat(l.index) + "'" else PrintNat(l.index)
  {}

  /** The address the code finds at one branch and index of any account: the path is read level
      by level, and a sign is not accepted. */
  function ReadAddress<K>(key: K, purpose: nat, account: int, change: nat, i: nat,
                          child: Child<K>, encode: K -> Option<string>): Option<string> {
    if account < 0 then None
    else match DeriveRead(key, ReadLevels(Levels(purpose, account, change, i)), child)
      case None => None
      case Some(k) => encode(k)
  }

  lemma AddressAtMeaning<K>(key: K, purpose: nat, prefix: string, account: nat, change: nat, branch: string, i: nat,
                            child: Child<K>, encode: K -> Option<string>)
    requires purpose < 100 && purpose >= 10 && change < 10
    requires prefix == "m/" + PrintNat(purpose) + "'/0'/" && branch == "'/" + PrintNat(change) + "/"
    ensures AddressAt(key, prefix, account, branch, i, child, encode) == ReadAddress(key, purpose, account, change, i, child, encode)
  {
    hide Derive, PrintPath, ReadLevels, Levels;
    PrintedLevels(purpose, account, change, i);
    DerivePrinted(key, Levels(purpose, account, change, i), child);
  }

  /** For every account below 2^31 and index below 2^32 that is where BIP 44 says. */
  lemma ReadAddressIsBip44<K>(key: K, purpose: nat, account: nat, change: nat, i: nat, child: Child<K>, encode: K -> Option<string>)
    requires purpose < HARDENED && account < HARDENED && change < UINT32 && i < UINT32
    ensures ReadAddress(key, purpose, account, change, i, child, encode) == AccountAddress(key, purpose, account, change, i, child, encode)
    ensures AccountAddress(key, purpose, account, change, i, child, encode)
         == match DeriveNumbers(key, [purpose + 0x8000_0000, 0x8000_0000, account + 0x8000_0000, change, i], child)
            case None => None case Some(k) => encode(k)
  {
    var levels := Levels(purpose, account, change, i);
    assert Numbers(levels) == [purpose + 0x8000_0000, 0x8000_0000, account + 0x8000_0000, change, i];
    DeriveReadsNumbers(key, ReadLevels(levels), Numbers(levels), child);
  }

  /** An account from 2^31 on is read as another level: unhardened, 2^31 less. Past 2^32 it is an
      error, as is an index past 2^32. */
  lemma LargeAccount<K>(key: K, purpose: nat, account: nat, change: nat, i: nat, child: Child<K>, encode: K -> Option<string>)
    requires purpose < HARDENED && account >= HARDENED && change < UINT32
    ensures account >= UINT32 || i >= UINT32 ==> ReadAddress(key, purpose, account, change, i, child, encode) == None
    ensures account < UINT32 && i < UINT32 ==>
      ReadAddress(key, purpose, account, change, i, child, encode)
      == match DeriveNumbers(key, [purpose + HARDENED, HARDENED, account - HARDENED, change, i], child)
         case None => None case Some(k) => encode(k)
  {
    var indices := ReadLevels(Levels(purpose, account, change, i));
    assert indices[0] == Some(purpose + HARDENED) && indices[1] == Some(HARDENED) && indices[3] == Some(change);
    if account < UINT32 && i < UINT32 {
      DeriveReadsNumbers(key, indices, [purpose + HARDENED, HARDENED, account - HARDENED, change, i], child);
    } else {
      UnreadableFails(key, indices, if account >= UINT32 then 2 else 4, child);
    }
  }

  lemma {:induction false} UnreadableFails<K>(key: K, indices: seq<Option<nat>>, n: nat, child: Child<K>)
    requires n < |indices| && indices[n] == None
    ensures DeriveRead(key, indices, child) == None
  {
    if n > 0 && indices[0].Some? && child(key, indices[0].value).Some? {
      UnreadableFails(child(key, indices[0].value).value, indices[1..], n - 1, child);
    }
  }

  lemma SignedLevelFails(n: int)
    requires n < 0
    ensures '/' !in PrintInt(n) + "'" && ComponentIndex(PrintInt(n) + "'") == None
  {
    assert AllDigits(PrintNat(-n));
    assert PrintInt(n) == "-" + PrintNat(-n);
    var level := PrintInt(n) + "'";
    assert level[..|level| - 1] == PrintInt(n) && level[|level| - 1] == '\'';
    ScanNegative(n);
  }

  /** A negative account number is printed with a sign, which the scanner does not accept. */
  lemma NegativeAccountFails<K>(key: K, purpose: string, account: int, change: string, i: nat, child: Child<K>, encode: K -> Option<string>)
    requires account < 0
    ensures AddressAt(key, "m/" + purpose + "/", account, "'/" + change, i, child, encode) == None
  {
    hide Derive, ComponentIndex, PrintInt;
    var level, tail := PrintInt(account) + "'", change + PrintInt(i);
    SignedLevelFails(account);
    assert AddressPath("m/" + purpose + "/", account, "'/" + change, i) == "m/" + (purpose + "/" + level) + "/" + tail;
    DeriveComposes(key, purpose + "/" + level, tail, child);
    assert "m/" + (purpose + "/" + level) == "m/" + purpose + "/" + level;
    DeriveComposes(key, purpose, level, child);
    forall k: K ensures Derive(k, "m/" + level, child) == None { DeriveOnePart(k, level, child); }
  }

  /** The list for an account. */
  method DeriveAccount<K>(key: K, ghost purpose: nat, prefix: string, account: int, gapLimit: int,
                          child: Child<K>, encode: K -> Option<string>) returns (r: Option<seq<string>>)
    requires 10 <= purpose < 100 && prefix == "m/" + PrintNat(purpose) + "'/0'/"
    ensures r.Some? <==> forall i: nat, c: nat :: i < gapLimit && c < 2 ==>
      ReadAddress(key, purpose, account, c, i, child, encode).Some?
    ensures r.Some? ==> |r.value| == if gapLimit < 0 then 0 else 2 * gapLimit
    ensures r.Some? ==> forall i: nat :: i < gapLimit ==>
      Some(r.value[i]) == ReadAddress(key, purpose, account, 0, i, child, encode)
      && Some(r.value[gapLimit + i]) == ReadAddress(key, purpose, account, 1, i, child, encode)
  {
    hide AddressAt, PrintNat;
    r := DeriveAddressList(key, prefix, account, gapLimit, child, encode);
    forall i: nat
      ensures AddressAt(key, prefix, account, "'/0/", i, child, encode) == ReadAddress(key, purpose, account, 0, i, child, encode)
      ensures AddressAt(key, prefix, account, "'/1/", i, child, encode) == ReadAddress(key, purpose, account, 1, i, child, encode)
    {
      BranchAddresses(key, purpose, prefix, account, i, child, encode);
    }
    hide ReadAddress;
  }

  lemma BranchAddresses<K>(key: K, purpose: nat, prefix: string, account: int, i: nat, child: Child<K>, encode: K -> Option<string>)
    requires 10 <= purpose < 100 && prefix == "m/" + PrintNat(purpose) + "'/0'/"
    ensures AddressAt(key, prefix, account, "'/0/", i, child, encode) == ReadAddress(key, purpose, account, 0, i, child, encode)
    ensures AddressAt(key, prefix, account, "'/1/", i, child, encode) == ReadAddress(key, purpose, account, 1, i, child, encode)
  {
    hide AddressAt, PrintNat, DeriveRead, ReadLevels, Levels;
    if account >= 0 {
      Branches();
      AddressAtMeaning(key, purpose, prefix, account, 0, "'/0/", i, child, encode);
      AddressAtMeaning(key, purpose, prefix, account, 1, "'/1/", i, child, encode);
    } else {
      assert prefix == "m/" + (PrintNat(purpose) + "'/0'") + "/" && "'/0/" == "'/" + "0/" && "'/1/" == "'/" + "1/";
      NegativeAccountFails(key, PrintNat(purpose) + "'/0'", account, "0/", i, child, encode);
      NegativeAccountFails(key, PrintNat(purpose) + "'/0'", account, "1/", i, child, encode);
    }
  }

  lemma Branches()
    ensures "'/0/" == "'/" + PrintNat(0) + "/" && "'/1/" == "'/" + PrintNat(1) + "/"
  {
    assert PrintNat(0) == "0" && PrintNat(1) == "1";
  }

  lemma Prefixes()
    ensures "m/84'/0'/" == "m/" + PrintNat(84) + "'/0'/"
    ensures "m/49'/0'/" == "m/" + PrintNat(49) + "'/0'/"
    ensures "m/44'/0'/" == "m/" + PrintNat(44) + "'/0'/"
  {
    assert PrintNat(84) == "84" && PrintNat(49) == "49" && PrintNat(44) == "44";
  }

  /** DeriveAddresses, for every account and every gap limit: all the addresses the paths lead
      to, receive addresses first, then change, or an error if there is one at any of them. For
      accounts below 2^31 and gap limits up to 2^32 they are those of BIP 44. */
  method DeriveAddresses<K>(xpub: Option<K>, scheme: string, account: int, gapLimit: int, child: Child<K>, encoders: Encoders<K>)
    returns (r: Option<seq<string>>)
    ensures xpub.None? || Purpose(scheme).None? ==> r == None
    ensures r.Some? ==> |r.value| == if gapLimit < 0 then 0 else 2 * gapLimit
    ensures r.Some? ==> xpub.Some? && (scheme == "bip84" || scheme == "bip49" || scheme == "bip44")
    ensures r.Some? && scheme == "bip84" ==> forall i: nat :: i < gapLimit ==>
      Some(r.value[i]) == ReadAddress(xpub.value, 84, account, 0, i, child, encoders.p2wpkh)
      && Some(r.value[gapLimit + i]) == ReadAddress(xpub.value, 84, account, 1, i, child, encoders.p2wpkh)
    ensures r.Some? && scheme == "bip49" ==> forall i: nat :: i < gapLimit ==>
      Some(r.value[i]) == ReadAddress(xpub.value, 49, account, 0, i, child, encoders.p2shP2wpkh)
      && Some(r.value[gapLimit + i]) == ReadAddress(xpub.value, 49, account, 1, i, child, encoders.p2shP2wpkh)
    ensures r.Some? && scheme == "bip44" ==> forall i: nat :: i < gapLimit ==>
      Some(r.value[i]) == ReadAddress(xpub.value, 44, account, 0, i, child, encoders.p2pkh)
      && Some(r.value[gapLimit + i]) == ReadAddress(xpub.value, 44, account, 1, i, child, encoders.p2pkh)
    ensures xpub.Some? && Purpose(scheme).Some? ==>
      (r.Some? <==> forall i: nat, c: nat :: i < gapLimit && c < 2 ==>
         ReadAddress(xpub.value, Purpose(scheme).value, account, c, i, child, Encoder(scheme, encoders)).Some?)
    ensures r.Some? ==> forall i: nat :: i < gapLimit ==>
      Some(r.value[i]) == ReadAddress(xpub.value, Purpose(scheme).value, account, 0, i, child, Encoder(scheme, encoders))
      && Some(r.value[gapLimit + i]) == ReadAddress(xpub.value, Purpose(scheme).value, account, 1, i, child, Encoder(scheme, encoders))
    ensures xpub.Some? && Purpose(scheme).Some? && 0 <= account < HARDENED && gapLimit <= UINT32 ==>
      forall i: nat, c: nat :: i < gapLimit && c < 2 ==>
        ReadAddress(xpub.value, Purpose(scheme).value, account, c, i, child, Encoder(scheme, encoders))
        == AccountAddress(xpub.value, Purpose(scheme).value, account, c, i, child, Encoder(scheme, encoders))
  {
    if xpub.None? || Purpose(scheme).None? { return None; }
    if 0 <= account < HARDENED && gapLimit <= UINT32 {
      forall i: nat, c: nat | i < gapLimit && c < 2
        ensures ReadAddress(xpub.value, Purpose(scheme).value, account, c, i, child, Encoder(scheme, encoders))
             == AccountAddress(xpub.value, Purpose(scheme).value, account, c, i, child, Encoder(scheme, encoders))
      {
        ReadAddressIsBip44(xpub.value, Purpose(scheme).value, account, c, i, child, Encoder(scheme, encoders));
      }
    }
    hide AccountAddress, ReadAddress, PrintNat;
    Prefixes();
    if scheme == "bip84" {
      assert Purpose(scheme) == Some(84) && Encoder(scheme, encoders) == encoders.p2wpkh;
      r := DeriveAccount(xpub.value, 84, "m/84'/0'/", account, gapLimit, child, encoders.p2wpkh);
    } else if scheme == "bip49" {
      assert Purpose(scheme) == Some(49) && Encoder(scheme, encoders) == encoders.p2shP2wpkh;
      r := DeriveAccount(xpub.value, 49, "m/49'/0'/", account, gapLimit, child, encoders.p2shP2wpkh);
    } else {
      assert Purpose(scheme) == Some(44) && Encoder(scheme, encoders) == encoders.p2pkh;
      r := DeriveAccount(xpub.value, 44, "m/44'/0'/", account, gapLimit, child, encoders.p2pkh);
    }
  }
}
