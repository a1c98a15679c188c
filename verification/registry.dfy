/**
 * The registry's two-tier storage: a dense list for field numbers
 * 1..MaxFieldListItems and a sparse map for larger ones, plus the
 * per-category fallbacks for fields nobody registered.
 */
module Registry {
  import opened Wrappers
  import opened Entry

  /** Field numbers up to this bound live in the dense list. */
  const MaxFieldListItems: int := 128

  /** The owner-settable fallbacks, one per dispatchable category. */
  datatype Fallbacks = Fallbacks(
    varint: Option<Handler>,
    fixed64: Option<Handler>,
    bytes: Option<Handler>,
    fixed32: Option<Handler>)

  /** `lst[n - 1]` holds field n for n <= 128; `mp` holds fields 129 and above. */
  datatype Callbacks = Callbacks(lst: seq<Callback>, mp: map<int, Callback>, unknown: Fallbacks)

  /** A registry before any registration: nil list, nil map. */
  function Initial(unknown: Fallbacks): (cb: Callbacks)
    ensures Valid(cb) && cb.unknown == unknown
    ensures forall n :: Get(cb, n) == Empty
  {
    Callbacks([], map[], unknown)
  }

  /**
   * The storage invariant every registration keeps: the map holds only
   * sparse keys, list slots past the dense range stay empty, and every
   * stored record has the shape its tag promises.
   */
  ghost predicate Valid(cb: Callbacks) {
    && (forall k :: k in cb.mp ==> k > MaxFieldListItems && WellFormed(cb.mp[k]))
    && (forall i :: 0 <= i < |cb.lst| ==>
          WellFormed(cb.lst[i]) && (i >= MaxFieldListItems ==> cb.lst[i] == Empty))
  }

  function Blank(n: nat): (s: seq<Callback>)
    ensures |s| == n && forall i :: 0 <= i < n ==> s[i] == Empty
  {
    seq(n, _ => Empty)
  }

  /**
   * Looks up the entry of field `num`. Total over all integers: numbers
   * below 1, dense numbers past the list's end and sparse numbers missing
   * from the map all yield the empty record.
   */
  function Get(cb: Callbacks, num: int): (c: Callback)
    ensures num <= 0 ==> c == Empty
    ensures 1 <= num <= MaxFieldListItems && num > |cb.lst| ==> c == Empty
    ensures num > MaxFieldListItems && num !in cb.mp ==> c == Empty
    ensures 1 <= num <= MaxFieldListItems && num <= |cb.lst| ==> c == cb.lst[num - 1]
    ensures num > MaxFieldListItems && num in cb.mp ==> c == cb.mp[num]
    ensures c != Empty ==>
      || (1 <= num <= MaxFieldListItems && num <= |cb.lst| && c == cb.lst[num - 1])
      || (num > MaxFieldListItems && num in cb.mp && c == cb.mp[num])
    ensures Valid(cb) ==> WellFormed(c)
  {
    if num <= 0 then Empty
    else if num > MaxFieldListItems then (if num in cb.mp then cb.mp[num] else Empty)
    else if num <= |cb.lst| then cb.lst[num - 1]
    else Empty
  }

  /**
   * Registers `c` for field `num`, replacing any earlier entry. A number
   * below 1 is a programming error (the source panics), hence the
   * precondition. When the dense list must grow, its new length is
   * `num + spare`: `spare` stands for the capacity the growth happened to
   * over-allocate, all of which becomes visible as empty slots.
   */
  function Set(cb: Callbacks, num: int, c: Callback, spare: nat): (cb': Callbacks)
    requires num >= 1
    ensures Get(cb', num) == c
    ensures forall m :: m != num ==> Get(cb', m) == Get(cb, m)
    ensures cb'.unknown == cb.unknown
    ensures num > MaxFieldListItems ==> cb'.lst == cb.lst && cb'.mp == cb.mp[num := c]
    ensures num <= MaxFieldListItems ==>
      && cb'.mp == cb.mp
      && |cb'.lst| >= num
      && cb'.lst[num - 1] == c
      && |cb'.lst| == (if |cb.lst| == 0 then num
                       else if |cb.lst| < num then num + spare
                       else |cb.lst|)
      && (forall i :: 0 <= i < |cb.lst| && i != num - 1 ==> cb'.lst[i] == cb.lst[i])
      && (forall i :: |cb.lst| <= i < |cb'.lst| && i != num - 1 ==> cb'.lst[i] == Empty)
    ensures Valid(cb) && WellFormed(c) ==> Valid(cb')
  {
    if num > MaxFieldListItems then
      cb.(mp := cb.mp[num := c])
    else
      var lst :=
        if |cb.lst| == 0 then Blank(num)
        else if |cb.lst| < num then cb.lst + Blank(num + spare - |cb.lst|)
        else cb.lst;
      cb.(lst := lst[num - 1 := c])
  }

  function SetVarint(cb: Callbacks, num: int, f: Option<Handler>, spare: nat): (cb': Callbacks)
    requires num >= 1
    ensures Get(cb', num).tp == VarintType && Get(cb', num).funcUint64 == f
    ensures WellFormed(Get(cb', num))
    ensures forall m :: m != num ==> Get(cb', m) == Get(cb, m)
    ensures cb'.unknown == cb.unknown
    ensures Valid(cb) ==> Valid(cb')
  {
    Set(cb, num, VarintEntry(f), spare)
  }

  function SetFixed64(cb: Callbacks, num: int, f: Option<Handler>, spare: nat): (cb': Callbacks)
    requires num >= 1
    ensures Get(cb', num).tp == Fixed64Type && Get(cb', num).funcUint64 == f
    ensures WellFormed(Get(cb', num))
    ensures forall m :: m != num ==> Get(cb', m) == Get(cb, m)
    ensures cb'.unknown == cb.unknown
    ensures Valid(cb) ==> Valid(cb')
  {
    Set(cb, num, Fixed64Entry(f), spare)
  }

  function SetFixed32(cb: Callbacks, num: int, f: Option<Handler>, spare: nat): (cb': Callbacks)
    requires num >= 1
    ensures Get(cb', num).tp == Fixed32Type && Get(cb', num).funcUint32 == f
    ensures WellFormed(Get(cb', num))
    ensures forall m :: m != num ==> Get(cb', m) == Get(cb, m)
    ensures cb'.unknown == cb.unknown
    ensures Valid(cb) ==> Valid(cb')
  {
    Set(cb, num, Fixed32Entry(f), spare)
  }

  function SetMessage(cb: Callbacks, num: int, m: Option<MessageRef>, spare: nat): (cb': Callbacks)
    requires num >= 1
    ensures Get(cb', num).tp == MessageType && Get(cb', num).message == m
    ensures WellFormed(Get(cb', num))
    ensures forall k :: k != num ==> Get(cb', k) == Get(cb, k)
    ensures cb'.unknown == cb.unknown
    ensures Valid(cb) ==> Valid(cb')
  {
    Set(cb, num, MessageEntry(m), spare)
  }

  function SetBytes(cb: Callbacks, num: int, f: Option<Handler>, spare: nat): (cb': Callbacks)
    requires num >= 1
    ensures Get(cb', num).tp == BytesType && Get(cb', num).funcBytes == f
    ensures WellFormed(Get(cb', num))
    ensures forall m :: m != num ==> Get(cb', m) == Get(cb, m)
    ensures cb'.unknown == cb.unknown
    ensures Valid(cb) ==> Valid(cb')
  {
    Set(cb, num, BytesEntry(f), spare)
  }

  /** Field 128 is the last dense number and 129 the first sparse one. */
  lemma DenseSparseBoundary(cb: Callbacks, c: Callback, spare: nat)
    ensures Set(cb, 128, c, spare).mp == cb.mp
    ensures |Set(cb, 128, c, spare).lst| >= 128 && Set(cb, 128, c, spare).lst[127] == c
    ensures Set(cb, 129, c, spare).lst == cb.lst
    ensures 129 in Set(cb, 129, c, spare).mp && Set(cb, 129, c, spare).mp[129] == c
  {
  }

  /** Registering a field twice keeps only the second entry. */
  lemma LastWriteWins(cb: Callbacks, num: int, a: Callback, b: Callback, s1: nat, s2: nat)
    requires num >= 1
    ensures forall m :: Get(Set(Set(cb, num, a, s1), num, b, s2), m) == Get(Set(cb, num, b, s2), m)
  {
  }

  /** Registrations of distinct fields are independent of their order. */
  lemma SetCommutes(cb: Callbacks, n: int, a: Callback, m: int, b: Callback, s1: nat, s2: nat)
    requires n >= 1 && m >= 1 && n != m
    ensures forall k :: Get(Set(Set(cb, n, a, s1), m, b, s2), k) == Get(Set(Set(cb, m, b, s2), n, a, s1), k)
  {
  }

  /** One `set` call of a setup phase, with the growth slack it happened to get. */
  datatype Registration = Registration(num: int, entry: Callback, spare: nat)

  ghost predicate Registrable(regs: seq<Registration>) {
    forall i :: 0 <= i < |regs| ==> regs[i].num >= 1
  }

  /** The registry a setup phase leaves behind: `regs` applied in order. */
  function Build(cb: Callbacks, regs: seq<Registration>): (cb': Callbacks)
    requires Registrable(regs)
    ensures cb'.unknown == cb.unknown
    ensures Valid(cb) && (forall i :: 0 <= i < |regs| ==> WellFormed(regs[i].entry)) ==> Valid(cb')
    decreases |regs|
  {
    if |regs| == 0 then cb
    else
      var last := regs[|regs| - 1];
      Set(Build(cb, regs[..|regs| - 1]), last.num, last.entry, last.spare)
  }

  /** Reference semantics of a setup phase: the last entry registered for `num`, if any. */
  function LastWrite(regs: seq<Registration>, num: int): Option<Callback>
    decreases |regs|
  {
    if |regs| == 0 then None
    else if regs[|regs| - 1].num == num then Some(regs[|regs| - 1].entry)
    else LastWrite(regs[..|regs| - 1], num)
  }

  /**
   * After any sequence of registrations, a lookup sees the last entry
   * registered for that number, or whatever was there before if none was.
   */
  lemma {:induction false} BuildLastWriteWins(cb: Callbacks, regs: seq<Registration>, num: int)
    requires Registrable(regs)
    ensures Get(Build(cb, regs), num) ==
      (match LastWrite(regs, num) case Some(c) => c case None => Get(cb, num))
  {
    if |regs| > 0 {
      BuildLastWriteWins(cb, regs[..|regs| - 1], num);
    }
  }
}
