/**
 * The invoice arithmetic of the table-payment screen: the voucher discount,
 * the merge of a pending cart into the lines of the table's open order, the
 * subtotal and the clamped total, removing a pending line, the validation of
 * the lines before they are synchronised to the server, and the table status
 * label.
 */
module AdTables {
  import opened Js
  import opened Seqs

  /** An invoice line. `id` is a number or a string; lines are keyed by `String(id)`. */
  datatype CartLine = CartLine(id: Value, name: string, price: int, quantity: int)

  /**
   * A voucher as the order carries it. `discountType` is compared strictly with
   * the numbers 1 and 2; a `discountValue` or `minPrice` of 0 is falsy, that is,
   * absent.
   */
  datatype Voucher = Voucher(discountType: Value, discountValue: int, minPrice: int)

  function Min(a: int, b: int): int { if a <= b then a else b }
  function Max(a: int, b: int): int { if a >= b then a else b }

  // ---------------------------------------------------------------------------
  // Voucher discount
  // ---------------------------------------------------------------------------

  /** `Math.round(x / 100)`: the nearest integer, halves rounded up. */
  function Round100(x: int): (r: int)
    ensures 100 * r - 50 <= x < 100 * r + 50
  {
    (x + 50) / 100
  }

  /** A voucher that applies: present, with a type and a value, and its minimum met. */
  predicate Applies(subtotal: int, v: Voucher) {
    Truthy(v.discountType) && v.discountValue != 0 && !(v.minPrice != 0 && subtotal < v.minPrice)
  }

  /** `calculateVoucherDiscount`. */
  function VoucherDiscount(subtotal: int, voucher: Option<Voucher>): (r: int)
    ensures voucher.Some? && Applies(subtotal, voucher.value) ==> r <= subtotal
    ensures voucher.None? || !Truthy(voucher.value.discountType) || voucher.value.discountValue == 0 ==> r == 0
    ensures voucher.Some? && voucher.value.minPrice != 0 && subtotal < voucher.value.minPrice ==> r == 0
  {
    if voucher.None? || !Truthy(voucher.value.discountType) || voucher.value.discountValue == 0 then 0
    else
      var v := voucher.value;
      if v.minPrice != 0 && subtotal < v.minPrice then 0
      else
        var discount :=
          if v.discountType == Num(1) then Round100(subtotal * v.discountValue)
          else if v.discountType == Num(2) then v.discountValue
          else 0;
        Min(discount, subtotal)
  }

  /** What an applicable voucher takes off, by type. */
  lemma VoucherDiscountByType(subtotal: int, v: Voucher)
    requires Applies(subtotal, v)
    ensures v.discountType == Num(1) ==>
              VoucherDiscount(subtotal, Some(v)) == Min(Round100(subtotal * v.discountValue), subtotal)
    ensures v.discountType == Num(2) ==> VoucherDiscount(subtotal, Some(v)) == Min(v.discountValue, subtotal)
    ensures v.discountType != Num(1) && v.discountType != Num(2) ==> VoucherDiscount(subtotal, Some(v)) == Min(0, subtotal)
  {
  }

  /** For a non-negative subtotal and a percentage in [0, 100], the discount is between 0 and the subtotal. */
  lemma {:induction false} PercentDiscountInRange(subtotal: int, v: Voucher)
    requires subtotal >= 0 && v.discountType == Num(1) && 0 <= v.discountValue <= 100
    ensures 0 <= VoucherDiscount(subtotal, Some(v)) <= subtotal
  {
    var x := subtotal * v.discountValue;
    assert 0 <= x <= subtotal * 100 by {
      assert subtotal * v.discountValue <= subtotal * 100;
    }
    var r := Round100(x);
    assert r >= 0;
  }

  /**
   * A discount type that arrives as a string (the shared type declarations
   * declare it `string`) matches neither strict comparison, so no discount is given.
   */
  lemma StringTypedVoucherGivesNothing(subtotal: int, v: Voucher)
    requires v.discountType.Str? && subtotal >= 0
    ensures VoucherDiscount(subtotal, Some(v)) == 0
  {
  }

  // ---------------------------------------------------------------------------
  // Merging the pending cart into the order's lines
  // ---------------------------------------------------------------------------

  function KeyOf(line: CartLine): string { ToStr(line.id) }

  function Keys(lines: seq<CartLine>): (r: seq<string>)
    ensures |r| == |lines| && forall i :: 0 <= i < |lines| ==> r[i] == KeyOf(lines[i])
  {
    if lines == [] then [] else [KeyOf(lines[0])] + Keys(lines[1..])
  }

  /**
   * A JavaScript `Map<string, line>`: the keys in insertion order and the
   * entries. Setting a key already present keeps its position.
   */
  datatype LineMap = LineMap(keys: seq<string>, entries: map<string, CartLine>)

  const EmptyMap := LineMap([], map[])

  /** The keys listed are exactly the keys present, and each entry sits under its own key. */
  ghost predicate Coherent(m: LineMap) {
    && (forall k :: k in m.keys <==> k in m.entries)
    && (forall k :: k in m.entries ==> KeyOf(m.entries[k]) == k)
  }

  /** `map.set(String(line.id), { ...line })`. */
  function SetLine(m: LineMap, line: CartLine): LineMap {
    var k := KeyOf(line);
    LineMap(if k in m.entries then m.keys else m.keys + [k], m.entries[k := line])
  }

  /** A pending line: add its quantity to the entry with its key, or set it when there is none. */
  function AddLine(m: LineMap, line: CartLine): LineMap {
    var k := KeyOf(line);
    if k in m.entries then
      LineMap(m.keys, m.entries[k := m.entries[k].(quantity := m.entries[k].quantity + line.quantity)])
    else SetLine(m, line)
  }

  function SetAll(m: LineMap, lines: seq<CartLine>): LineMap
    decreases |lines|
  {
    if lines == [] then m else SetAll(SetLine(m, lines[0]), lines[1..])
  }

  function AddAll(m: LineMap, lines: seq<CartLine>): LineMap
    decreases |lines|
  {
    if lines == [] then m else AddAll(AddLine(m, lines[0]), lines[1..])
  }

  /** `Array.from(map.values())`. */
  function ValuesOf(keys: seq<string>, entries: map<string, CartLine>): seq<CartLine> {
    if keys == [] then []
    else if keys[0] in entries then [entries[keys[0]]] + ValuesOf(keys[1..], entries)
    else ValuesOf(keys[1..], entries)
  }

  /** The lines shown when a pending cart is added to an open order. */
  function MergeLines(existing: seq<CartLine>, pending: seq<CartLine>): seq<CartLine> {
    var m := AddAll(SetAll(EmptyMap, existing), pending);
    ValuesOf(m.keys, m.entries)
  }

  /** The merge as the component performs it: fill a map from both lists, then read its values. */
  method Merge(existing: seq<CartLine>, pending: seq<CartLine>) returns (lines: seq<CartLine>)
    ensures lines == MergeLines(existing, pending)
  {
    var keys, entries := SetLines([], map[], existing);
    keys, entries := AddLines(keys, entries, pending);
    lines := MapValues(keys, entries);
  }

  /** `existing.forEach(item => map.set(String(item.id), { ...item }))`. */
  method SetLines(keys0: seq<string>, entries0: map<string, CartLine>, existing: seq<CartLine>)
    returns (keys: seq<string>, entries: map<string, CartLine>)
    requires forall k :: k in keys0 <==> k in entries0
    ensures forall k :: k in keys <==> k in entries
    ensures LineMap(keys, entries) == SetAll(LineMap(keys0, entries0), existing)
  {
    keys, entries := keys0, entries0;
    for i := 0 to |existing|
      invariant forall k :: k in keys <==> k in entries
      invariant SetAll(LineMap(keys, entries), existing[i..]) == SetAll(LineMap(keys0, entries0), existing)
    {
      SetAllStep(LineMap(keys, entries), existing, i);
      var key := KeyOf(existing[i]);
      if key !in entries {
        keys := keys + [key];
      }
      entries := entries[key := existing[i]];
    }
  }

  /** `pending.forEach(...)`: add to the entry with the same key, or set a new one. */
  method AddLines(keys0: seq<string>, entries0: map<string, CartLine>, pending: seq<CartLine>)
    returns (keys: seq<string>, entries: map<string, CartLine>)
    requires forall k :: k in keys0 <==> k in entries0
    ensures forall k :: k in keys <==> k in entries
    ensures LineMap(keys, entries) == AddAll(LineMap(keys0, entries0), pending)
  {
    keys, entries := keys0, entries0;
    for i := 0 to |pending|
      invariant forall k :: k in keys <==> k in entries
      invariant AddAll(LineMap(keys, entries), pending[i..]) == AddAll(LineMap(keys0, entries0), pending)
    {
      AddAllStep(LineMap(keys, entries), pending, i);
      ghost var before := LineMap(keys, entries);
      var key := KeyOf(pending[i]);
      if key in entries {
        entries := entries[key := entries[key].(quantity := entries[key].quantity + pending[i].quantity)];
      } else {
        keys := keys + [key];
        entries := entries[key := pending[i]];
      }
      assert LineMap(keys, entries) == AddLine(before, pending[i]);
    }
  }

  /** `Array.from(map.values())`. */
  method MapValues(keys: seq<string>, entries: map<string, CartLine>) returns (lines: seq<CartLine>)
    requires forall k :: k in keys ==> k in entries
    ensures lines == ValuesOf(keys, entries)
  {
    lines := [];
    for j := 0 to |keys|
      invariant lines + ValuesOf(keys[j..], entries) == ValuesOf(keys, entries)
    {
      assert keys[j..] == [keys[j]] + keys[j + 1..];
      assert keys[j] in keys;
      lines := lines + [entries[keys[j]]];
    }
    assert keys[|keys|..] == [];
  }

  lemma SetAllStep(m: LineMap, s: seq<CartLine>, i: nat)
    requires i < |s|
    ensures SetAll(m, s[i..]) == SetAll(SetLine(m, s[i]), s[i + 1..])
  {
    assert s[i..][0] == s[i] && s[i..][1..] == s[i + 1..];
  }

  lemma AddAllStep(m: LineMap, s: seq<CartLine>, i: nat)
    requires i < |s|
    ensures AddAll(m, s[i..]) == AddAll(AddLine(m, s[i]), s[i + 1..])
  {
    assert s[i..][0] == s[i] && s[i..][1..] == s[i + 1..];
  }

  /** The keys of `s` in order of first appearance, after those of `acc`. */
  function DedupOnto(acc: seq<string>, s: seq<string>): seq<string>
    decreases |s|
  {
    if s == [] then acc else DedupOnto(if s[0] in acc then acc else acc + [s[0]], s[1..])
  }

  function Dedup(s: seq<string>): seq<string> { DedupOnto([], s) }

  lemma {:induction false} DedupOntoAppend(acc: seq<string>, a: seq<string>, b: seq<string>)
    ensures DedupOnto(acc, a + b) == DedupOnto(DedupOnto(acc, a), b)
    decreases |a|
  {
    if a == [] {
      assert a + b == b;
    } else {
      assert (a + b)[0] == a[0] && (a + b)[1..] == a[1..] + b;
      DedupOntoAppend(if a[0] in acc then acc else acc + [a[0]], a[1..], b);
    }
  }

  /**
   * Deduplication keeps `acc` as a prefix and then appends, without repeats,
   * the keys of `s` not yet seen, in the order of `s`.
   */
  lemma DedupOntoShape(acc: seq<string>, s: seq<string>)
    requires NoDuplicates(acc)
    ensures var r := DedupOnto(acc, s);
            && |acc| <= |r| && r[..|acc|] == acc
            && NoDuplicates(r)
            && (forall k :: k in r <==> k in acc || k in s)
            && (forall i :: |acc| <= i < |r| ==> r[i] !in acc)
            && IsSubsequence(r[|acc|..], s)
  {
    DedupOntoPrefix(acc, s);
    DedupOntoMembers(acc, s);
    DedupOntoFresh(acc, s);
    DedupOntoOrder(acc, s);
  }

  lemma {:induction false} DedupOntoPrefix(acc: seq<string>, s: seq<string>)
    ensures |acc| <= |DedupOnto(acc, s)| && DedupOnto(acc, s)[..|acc|] == acc
    decreases |s|
  {
    if s != [] {
      var acc' := if s[0] in acc then acc else acc + [s[0]];
      DedupOntoPrefix(acc', s[1..]);
      var r := DedupOnto(acc', s[1..]);
      assert r[..|acc|] == r[..|acc'|][..|acc|];
    }
  }

  lemma {:induction false} DedupOntoMembers(acc: seq<string>, s: seq<string>)
    ensures forall k :: k in DedupOnto(acc, s) <==> k in acc || k in s
    decreases |s|
  {
    if s != [] {
      var acc' := if s[0] in acc then acc else acc + [s[0]];
      DedupOntoMembers(acc', s[1..]);
      assert s == [s[0]] + s[1..];
    }
  }

  lemma {:induction false} DedupOntoFresh(acc: seq<string>, s: seq<string>)
    requires NoDuplicates(acc)
    ensures NoDuplicates(DedupOnto(acc, s))
    ensures forall i :: |acc| <= i < |DedupOnto(acc, s)| ==> DedupOnto(acc, s)[i] !in acc
    decreases |s|
  {
    if s != [] {
      var acc' := if s[0] in acc then acc else acc + [s[0]];
      DedupOntoFresh(acc', s[1..]);
      DedupOntoPrefix(acc', s[1..]);
      var r := DedupOnto(acc', s[1..]);
      forall i | |acc| <= i < |r| ensures r[i] !in acc {
        if i >= |acc'| {
          assert r[i] !in acc';
          assert forall k :: k in acc ==> k in acc';
        } else {
          assert r[i] == acc'[i] == s[0];
        }
      }
    }
  }

  lemma {:induction false} DedupOntoOrder(acc: seq<string>, s: seq<string>)
    ensures |acc| <= |DedupOnto(acc, s)| && IsSubsequence(DedupOnto(acc, s)[|acc|..], s)
    decreases |s|
  {
    DedupOntoPrefix(acc, s);
    var r := DedupOnto(acc, s);
    if s != [] {
      var acc' := if s[0] in acc then acc else acc + [s[0]];
      DedupOntoOrder(acc', s[1..]);
      DedupOntoPrefix(acc', s[1..]);
      if s[0] in acc {
        SubsequenceSkip(r[|acc|..], s[1..], s[0]);
        assert [s[0]] + s[1..] == s;
      } else {
        assert r[|acc|..] == [s[0]] + r[|acc'|..];
        assert ([s[0]] + r[|acc'|..])[1..] == r[|acc'|..];
      }
    } else {
      assert r[|acc|..] == [];
    }
  }

  lemma {:induction false} SetAllCoherent(m: LineMap, s: seq<CartLine>)
    requires Coherent(m)
    ensures Coherent(SetAll(m, s))
    ensures SetAll(m, s).keys == DedupOnto(m.keys, Keys(s))
    decreases |s|
  {
    if s != [] {
      SetAllCoherent(SetLine(m, s[0]), s[1..]);
      assert Keys(s)[0] == KeyOf(s[0]) && Keys(s)[1..] == Keys(s[1..]);
    }
  }

  lemma {:induction false} AddAllCoherent(m: LineMap, s: seq<CartLine>)
    requires Coherent(m)
    ensures Coherent(AddAll(m, s))
    ensures AddAll(m, s).keys == DedupOnto(m.keys, Keys(s))
    decreases |s|
  {
    if s != [] {
      AddAllCoherent(AddLine(m, s[0]), s[1..]);
      assert Keys(s)[0] == KeyOf(s[0]) && Keys(s)[1..] == Keys(s[1..]);
    }
  }

  lemma {:induction false} ValuesOfIndex(keys: seq<string>, entries: map<string, CartLine>)
    requires forall k :: k in keys ==> k in entries
    ensures |ValuesOf(keys, entries)| == |keys|
    ensures forall i :: 0 <= i < |keys| ==> ValuesOf(keys, entries)[i] == entries[keys[i]]
  {
    if keys != [] {
      assert keys[0] in keys;
      forall k | k in keys[1..] ensures k in entries { assert k in keys; }
      ValuesOfIndex(keys[1..], entries);
    }
  }

  /**
   * The merged lines are keyed by the existing keys first, in order of first
   * appearance, then by the keys only the pending cart has, in pending order;
   * no key occurs twice.
   */
  lemma {:induction false} MergeKeys(existing: seq<CartLine>, pending: seq<CartLine>)
    ensures var ks := Keys(MergeLines(existing, pending));
            var front := Dedup(Keys(existing));
            && ks == Dedup(Keys(existing) + Keys(pending))
            && NoDuplicates(ks)
            && |front| <= |ks| && ks[..|front|] == front
            && (forall k :: k in ks <==> k in Keys(existing) || k in Keys(pending))
            && (forall i :: |front| <= i < |ks| ==> ks[i] !in Keys(existing))
            && IsSubsequence(ks[|front|..], Keys(pending))
  {
    var front := Dedup(Keys(existing));
    MergedKeySeq(existing, pending);
    DedupOntoAppend([], Keys(existing), Keys(pending));
    DedupOntoShape([], Keys(existing));
    DedupOntoShape(front, Keys(pending));
  }

  /** The merged keys are the existing keys deduplicated, then the new pending keys. */
  lemma MergedKeySeq(existing: seq<CartLine>, pending: seq<CartLine>)
    ensures Keys(MergeLines(existing, pending)) == DedupOnto(Dedup(Keys(existing)), Keys(pending))
  {
    var m1 := SetAll(EmptyMap, existing);
    SetAllCoherent(EmptyMap, existing);
    var m2 := AddAll(m1, pending);
    AddAllCoherent(m1, pending);
    ValuesOfIndex(m2.keys, m2.entries);
    assert Keys(ValuesOf(m2.keys, m2.entries)) == m2.keys;
  }

  /** `s` has a line with key `k`: its last such line. */
  function LastLine(s: seq<CartLine>, k: string): (r: Option<CartLine>)
    ensures r.Some? <==> k in Keys(s)
    ensures r.Some? ==> KeyOf(r.value) == k
  {
    if s == [] then None
    else
      assert Keys(s) == [KeyOf(s[0])] + Keys(s[1..]);
      match LastLine(s[1..], k)
      case Some(l) => Some(l)
      case None => if KeyOf(s[0]) == k then Some(s[0]) else None
  }

  function FirstLine(s: seq<CartLine>, k: string): (r: Option<CartLine>)
    ensures r.Some? <==> k in Keys(s)
    ensures r.Some? ==> KeyOf(r.value) == k
  {
    if s == [] then None
    else
      assert Keys(s) == [KeyOf(s[0])] + Keys(s[1..]);
      if KeyOf(s[0]) == k then Some(s[0]) else FirstLine(s[1..], k)
  }

  /** The total quantity of the lines with key `k`. */
  function SumQty(s: seq<CartLine>, k: string): int {
    SumOf(s, (l: CartLine) => if KeyOf(l) == k then l.quantity else 0)
  }

  lemma {:induction false} SetAllEntry(m: LineMap, s: seq<CartLine>, k: string)
    ensures k in SetAll(m, s).entries <==> k in m.entries || k in Keys(s)
    ensures LastLine(s, k).Some? ==> SetAll(m, s).entries[k] == LastLine(s, k).value
    ensures LastLine(s, k).None? && k in m.entries ==> SetAll(m, s).entries[k] == m.entries[k]
    decreases |s|
  {
    if s != [] {
      SetAllEntry(SetLine(m, s[0]), s[1..], k);
      assert Keys(s) == [KeyOf(s[0])] + Keys(s[1..]);
    }
  }

  lemma {:induction false} AddAllEntry(m: LineMap, s: seq<CartLine>, k: string)
    ensures k in AddAll(m, s).entries <==> k in m.entries || k in Keys(s)
    ensures k in m.entries ==>
              AddAll(m, s).entries[k] == m.entries[k].(quantity := m.entries[k].quantity + SumQty(s, k))
    ensures k !in m.entries && k in Keys(s) ==>
              AddAll(m, s).entries[k] == FirstLine(s, k).value.(quantity := SumQty(s, k))
    decreases |s|
  {
    if s != [] {
      AddAllEntry(AddLine(m, s[0]), s[1..], k);
      assert Keys(s) == [KeyOf(s[0])] + Keys(s[1..]);
    }
  }

  /**
   * Each merged line is the order's line with that key (the last one, when the
   * key repeats) with every pending quantity for the key added, or, for a key
   * only the pending cart has, its first pending line carrying the pending
   * quantities summed.
   */
  lemma {:induction false} MergeLineFor(existing: seq<CartLine>, pending: seq<CartLine>, i: nat)
    requires i < |MergeLines(existing, pending)|
    ensures var line := MergeLines(existing, pending)[i];
            var k := KeyOf(line);
            && (LastLine(existing, k).Some? ==>
                  line == LastLine(existing, k).value.(quantity := LastLine(existing, k).value.quantity + SumQty(pending, k)))
            && (LastLine(existing, k).None? ==>
                  FirstLine(pending, k).Some? && line == FirstLine(pending, k).value.(quantity := SumQty(pending, k)))
  {
    var m1 := SetAll(EmptyMap, existing);
    SetAllCoherent(EmptyMap, existing);
    var m2 := AddAll(m1, pending);
    AddAllCoherent(m1, pending);
    ValuesOfIndex(m2.keys, m2.entries);
    var k := m2.keys[i];
    assert k in m2.keys;
    SetAllEntry(EmptyMap, existing, k);
    AddAllEntry(m1, pending, k);
  }

  /** Without an open order, the pending lines are shown as they are. */
  function DisplayedLines(existing: seq<CartLine>, pending: Option<seq<CartLine>>, hasOrder: bool): (r: seq<CartLine>)
    ensures pending.None? ==> r == existing
    ensures pending.Some? && !hasOrder ==> r == pending.value
    ensures pending.Some? && hasOrder ==> r == MergeLines(existing, pending.value)
  {
    match pending
    case None => existing
    case Some(p) => if hasOrder then MergeLines(existing, p) else p
  }

  // ---------------------------------------------------------------------------
  // Totals
  // ---------------------------------------------------------------------------

  function LineAmount(line: CartLine): int { line.price * line.quantity }

  /** `Σ price × quantity`. */
  function Subtotal(lines: seq<CartLine>): int {
    SumOf(lines, LineAmount)
  }

  /** `max(0, subtotal − voucherDiscount − depositAmount)`. */
  function Total(subtotal: int, voucherDiscount: int, deposit: int): (r: int)
    ensures r >= 0
    ensures r >= subtotal - voucherDiscount - deposit
    ensures subtotal - voucherDiscount - deposit >= 0 ==> r == subtotal - voucherDiscount - deposit
    ensures subtotal - voucherDiscount - deposit < 0 ==> r == 0
  {
    Max(0, subtotal - voucherDiscount - deposit)
  }

  /** The total computed from the order the API returned, every amount coerced with `Number(x) || 0`. */
  function ApiFinalTotal(originalTotal: Value, voucherDiscount: Value, deposit: Value): (r: int)
    ensures r == Total(NumberOrZero(originalTotal), NumberOrZero(voucherDiscount), NumberOrZero(deposit))
  {
    var original := NumberOrZero(originalTotal);
    var voucher := NumberOrZero(voucherDiscount);
    var paid := NumberOrZero(deposit);
    if original - voucher - paid > 0 then original - voucher - paid else 0
  }

  /** With non-negative deductions the total never exceeds the subtotal. */
  lemma TotalAtMostSubtotal(subtotal: int, voucherDiscount: int, deposit: int)
    requires subtotal >= 0 && voucherDiscount >= 0 && deposit >= 0
    ensures Total(subtotal, voucherDiscount, deposit) <= subtotal
  {
  }

  /** With an applicable percentage voucher and no deposit, the total stays within the subtotal. */
  lemma PercentVoucherTotal(lines: seq<CartLine>, v: Voucher)
    requires Subtotal(lines) >= 0 && v.discountType == Num(1) && 0 <= v.discountValue <= 100
    ensures 0 <= Total(Subtotal(lines), VoucherDiscount(Subtotal(lines), Some(v)), 0) <= Subtotal(lines)
  {
    PercentDiscountInRange(Subtotal(lines), v);
  }

  // ---------------------------------------------------------------------------
  // Removing a pending line
  // ---------------------------------------------------------------------------

  /** `pendingOrder.orders.filter(item => String(item.id) !== String(itemId))`. */
  function RemoveLine(lines: seq<CartLine>, itemId: string): (r: seq<CartLine>)
    ensures forall i :: 0 <= i < |r| ==> KeyOf(r[i]) != itemId
    ensures forall i :: 0 <= i < |lines| && KeyOf(lines[i]) != itemId ==> lines[i] in r
    ensures forall x :: multiset(r)[x] == if KeyOf(x) != itemId then multiset(lines)[x] else 0
  {
    FilterKeeps(lines, (l: CartLine) => KeyOf(l) != itemId);
    FilterCount(lines, (l: CartLine) => KeyOf(l) != itemId);
    Filter(lines, (l: CartLine) => KeyOf(l) != itemId)
  }

  lemma {:induction false} RemoveLineKeepsOrder(lines: seq<CartLine>, itemId: string)
    ensures IsSubsequence(RemoveLine(lines, itemId), lines)
  {
    FilterIsSubsequence(lines, (l: CartLine) => KeyOf(l) != itemId);
  }

  /** Removing takes exactly the amounts of the removed lines off the subtotal. */
  lemma {:induction false} RemoveLineSubtotal(lines: seq<CartLine>, itemId: string)
    ensures Subtotal(lines) == Subtotal(RemoveLine(lines, itemId)) + SumQtyAmount(lines, itemId)
  {
    if lines != [] {
      RemoveLineSubtotal(lines[1..], itemId);
    }
  }

  /** The amount of the lines with key `k`. */
  function SumQtyAmount(lines: seq<CartLine>, k: string): int {
    SumOf(lines, (l: CartLine) => if KeyOf(l) == k then LineAmount(l) else 0)
  }

  // ---------------------------------------------------------------------------
  // Validation before synchronising
  // ---------------------------------------------------------------------------

  datatype SyncError = EmptyList | MissingId(name: string) | BadQuantity(name: string)

  /** A line as posted to the server: `Number(id)` (None for `NaN`) and the quantity. */
  datatype SyncItem = SyncItem(idProduct: Option<int>, quantity: int)

  predicate ValidLine(line: CartLine) {
    Truthy(line.id) && line.quantity >= 1
  }

  /** The error the first invalid line throws. */
  function LineError(line: CartLine): SyncError {
    if !Truthy(line.id) then MissingId(line.name) else BadQuantity(line.name)
  }

  /** `items.map(...)`, throwing at the first invalid line. */
  function ValidateLines(items: seq<CartLine>): (r: Result<seq<SyncItem>, SyncError>)
    ensures r.Ok? <==> forall i :: 0 <= i < |items| ==> ValidLine(items[i])
    ensures r.Ok? ==> |r.value| == |items|
                      && forall i :: 0 <= i < |items| ==>
                           r.value[i] == SyncItem(NumberOf(items[i].id), items[i].quantity)
    ensures r.Err? ==> exists i :: 0 <= i < |items| && !ValidLine(items[i]) && r.error == LineError(items[i])
                                   && forall j :: 0 <= j < i ==> ValidLine(items[j])
  {
    if items == [] then Ok([])
    else if !ValidLine(items[0]) then Err(LineError(items[0]))
    else
      match ValidateLines(items[1..])
      case Err(e) =>
        assert exists i :: 0 <= i < |items[1..]| && !ValidLine(items[1..][i]) && e == LineError(items[1..][i])
                           && forall j :: 0 <= j < i ==> ValidLine(items[1..][j]);
        var i :| 0 <= i < |items[1..]| && !ValidLine(items[1..][i]) && e == LineError(items[1..][i])
                 && forall j :: 0 <= j < i ==> ValidLine(items[1..][j]);
        assert forall j :: 0 <= j < i + 1 ==> ValidLine(items[j]) by {
          forall j | 0 <= j < i + 1 ensures ValidLine(items[j]) {
            if j > 0 { assert items[j] == items[1..][j - 1]; }
          }
        }
        Err(e)
      case Ok(rest) =>
        Ok([SyncItem(NumberOf(items[0].id), items[0].quantity)] + rest)
  }

  /**
   * What a caller of `syncOrderItemsToServer` sees. `reply` is the outcome of
   * the POST: the response, or the failure with the server's
   * `response.data.message` when it carries one. A validation error thrown
   * locally has no `response`, so the catch replaces it by the generic message;
   * only a truthy server message reaches the caller unchanged.
   */
  function SyncOutcome<R>(items: seq<CartLine>, reply: Result<R, Option<string>>): (r: Result<R, string>)
    ensures ValidateSync(items).Err? ==> r == Err(SyncFailedMessage)
    ensures ValidateSync(items).Ok? && reply.Ok? ==> r == Ok(reply.value)
    ensures ValidateSync(items).Ok? && reply.Err? && reply.error.Some? && reply.error.value != "" ==>
              r == Err(reply.error.value)
    ensures ValidateSync(items).Ok? && reply.Err? && (reply.error.None? || reply.error.value == "") ==>
              r == Err(SyncFailedMessage)
  {
    if ValidateSync(items).Err? then Err(SyncFailedMessage)
    else match reply
      case Ok(response) => Ok(response)
      case Err(message) =>
        if message.Some? && message.value != "" then Err(message.value) else Err(SyncFailedMessage)
  }

  const SyncFailedMessage := "Failed to sync order items"

  /** No validation message reaches the caller: an empty cart or a bad line always fails generically. */
  lemma SyncHidesValidation<R>(items: seq<CartLine>, reply: Result<R, Option<string>>)
    requires items == [] || exists i :: 0 <= i < |items| && !ValidLine(items[i])
    ensures SyncOutcome(items, reply) == Err(SyncFailedMessage)
  {
  }

  /** `syncOrderItemsToServer`'s checks: an empty list is refused before any line is looked at. */
  function ValidateSync(items: seq<CartLine>): (r: Result<seq<SyncItem>, SyncError>)
    ensures items == [] ==> r == Err(EmptyList)
    ensures items != [] ==> r == ValidateLines(items)
  {
    if items == [] then Err(EmptyList) else ValidateLines(items)
  }

  // ---------------------------------------------------------------------------
  // Table status label
  // ---------------------------------------------------------------------------

  /** `statusMap[status]`: None when the map has no such key. */
  function StatusName(status: string): Option<string> {
    if status == "available" then Some("Trống")
    else if status == "occupied" then Some("Đang sử dụng")
    else if status == "reserved" then Some("Đã đặt trước")
    else None
  }

  /** The effective table status: occupied while there are lines, else the table's own, else available. */
  function TableStatus(tableStatus: Value, lineCount: nat): (r: Value)
    ensures lineCount > 0 ==> r == Str("occupied")
    ensures lineCount == 0 && Truthy(tableStatus) ==> r == tableStatus
    ensures lineCount == 0 && !Truthy(tableStatus) ==> r == Str("available")
  {
    if lineCount > 0 then Str("occupied") else Or(tableStatus, Str("available"))
  }

  /** `statusMap[tableStatus] || tableStatus`. */
  function TableStatusLabel(tableStatus: Value, lineCount: nat): (r: Value)
    ensures lineCount > 0 ==> r == Str("Đang sử dụng")
    ensures lineCount == 0 && !Truthy(tableStatus) ==> r == Str("Trống")
    ensures lineCount == 0 && Truthy(tableStatus) && StatusName(ToStr(tableStatus)).None? ==> r == tableStatus
    ensures lineCount == 0 && Truthy(tableStatus) && StatusName(ToStr(tableStatus)).Some? ==>
              r == Str(StatusName(ToStr(tableStatus)).value)
  {
    var status := TableStatus(tableStatus, lineCount);
    match StatusName(ToStr(status))
    case Some(name) => Str(name)
    case None => status
  }
}
