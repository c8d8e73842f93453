/**
  The order history kept in browser storage (src/utils/orderUtils.ts) and
  the generate action of the application shell (src/App.tsx) that builds an
  order from the editor and saves it.  Storage is a value passed in and
  returned; the clock and the random draw are parameters.
*/
module OrderHistory {
  import opened Wrappers
  import opened Text
  import opened BeltDesign

  /** The most orders the history keeps. */
  const MaxOrders: nat := 100

  /** The storage entry for the order history: no entry (or an empty one),
      text that is not JSON at all, JSON whose value is not a list, or a
      saved list, newest first. */
  datatype Stored = Absent | Unparsable | NotAList | Saved(orders: seq<BeltOrder>)

  /** What loading gives: the saved list, the empty list when there is no
      entry or the text does not parse, and `None` for a parsed value that is
      not a list, which loading hands back as it is. */
  function LoadOrders(st: Stored): (r: Option<seq<BeltOrder>>)
    ensures r.None? <==> st.NotAList?
    ensures st.Absent? || st.Unparsable? ==> r == Some([])
    ensures st.Saved? ==> r == Some(st.orders)
  {
    match st
    case Saved(os) => Some(os)
    case NotAList => None
    case _ => Some([])
  }

  /** Puts an order at the front of the history and keeps the newest 100.
      On a stored value that is not a list the insertion throws and nothing
      is written: `None`. */
  function SaveOrder(st: Stored, o: BeltOrder): (r: Option<Stored>)
    ensures r.None? <==> st.NotAList?
    ensures r.Some? ==> r.value.Saved?
    ensures r.Some? ==> var prev := LoadOrders(st).value;
      && |r.value.orders| == (if |prev| + 1 <= MaxOrders then |prev| + 1 else MaxOrders)
      && r.value.orders[0] == o
      && r.value.orders[1..] == prev[..|r.value.orders| - 1]
  {
    match LoadOrders(st)
    case None => None
    case Some(prev) =>
      var all := [o] + prev;
      Some(Saved(if |all| > MaxOrders then all[..MaxOrders] else all))
  }

  /** The orders whose id differs from `id`, in their original order. */
  function WithoutId(os: seq<BeltOrder>, id: string): (r: seq<BeltOrder>)
    ensures |r| <= |os|
    ensures forall i :: 0 <= i < |r| ==> r[i].id != id && r[i] in os
  {
    if |os| == 0 then []
    else (if os[0].id == id then [] else [os[0]]) + WithoutId(os[1..], id)
  }

  /** Removes every order with the given id from the history.  On a stored
      value that is not a list the filtering throws and nothing is written:
      `None`. */
  function DeleteOrder(st: Stored, id: string): (r: Option<Stored>)
    ensures r.None? <==> st.NotAList?
    ensures r.Some? ==> r.value.Saved?
    ensures r.Some? ==> forall i :: 0 <= i < |r.value.orders| ==> r.value.orders[i].id != id
  {
    match LoadOrders(st)
    case None => None
    case Some(prev) => Some(Saved(WithoutId(prev, id)))
  }

  /** Filtering distributes over concatenation: the orders kept from a list
      keep their relative order. */
  lemma {:induction false} WithoutIdAppend(a: seq<BeltOrder>, b: seq<BeltOrder>, id: string)
    ensures WithoutId(a + b, id) == WithoutId(a, id) + WithoutId(b, id)
    decreases |a|
  {
    if |a| == 0 {
      assert a + b == b;
    } else {
      assert (a + b)[0] == a[0];
      assert (a + b)[1..] == a[1..] + b;
      WithoutIdAppend(a[1..], b, id);
    }
  }

  /** An order survives the deletion exactly when it was saved and has a
      different id. */
  lemma {:induction false} WithoutIdMembers(os: seq<BeltOrder>, id: string, o: BeltOrder)
    ensures o in WithoutId(os, id) <==> o in os && o.id != id
    decreases |os|
  {
    if |os| > 0 {
      WithoutIdMembers(os[1..], id, o);
      assert os == [os[0]] + os[1..];
    }
  }

  /** Deleting an id nobody has leaves the list as it was. */
  lemma {:induction false} WithoutAbsentId(os: seq<BeltOrder>, id: string)
    requires forall i :: 0 <= i < |os| ==> os[i].id != id
    ensures WithoutId(os, id) == os
    decreases |os|
  {
    if |os| > 0 {
      WithoutAbsentId(os[1..], id);
      assert os == [os[0]] + os[1..];
    }
  }

  /** Deleting keeps every other order, in order; deleting twice is deleting
      once; an absent id changes nothing. */
  lemma DeleteOrderProperties(st: Stored, id: string, o: BeltOrder)
    ensures !st.NotAList? ==>
      var prev := LoadOrders(st).value; var r := DeleteOrder(st, id).value;
      && (o in r.orders <==> o in prev && o.id != id)
      && DeleteOrder(r, id) == Some(r)
      && ((forall i :: 0 <= i < |prev| ==> prev[i].id != id) ==> r.orders == prev)
  {
    if !st.NotAList? {
      var prev := LoadOrders(st).value;
      var r := DeleteOrder(st, id).value;
      WithoutIdMembers(prev, id, o);
      WithoutAbsentId(r.orders, id);
      if forall i :: 0 <= i < |prev| ==> prev[i].id != id {
        WithoutAbsentId(prev, id);
      }
    }
  }

  /** Saving an order with a new id below the cap, then deleting it, gives
      the history back; on a stored value that is not a list both fail. */
  lemma SaveThenDelete(st: Stored, o: BeltOrder)
    requires st.NotAList? || |LoadOrders(st).value| < MaxOrders
    requires st.NotAList? || forall i :: 0 <= i < |LoadOrders(st).value| ==> LoadOrders(st).value[i].id != o.id
    ensures SaveOrder(st, o).None? <==> DeleteOrder(st, o.id).None?
    ensures SaveOrder(st, o).Some? ==>
      DeleteOrder(SaveOrder(st, o).value, o.id) == Some(Saved(LoadOrders(st).value))
  {
    if !st.NotAList? {
      var prev := LoadOrders(st).value;
      var saved := SaveOrder(st, o).value;
      assert saved == Saved([o] + prev);
      WithoutIdAppend([o], prev, o.id);
      WithoutAbsentId(prev, o.id);
      assert WithoutId([o], o.id) == [];
      assert LoadOrders(saved) == Some([o] + prev);
      assert WithoutId([o] + prev, o.id) == prev;
      assert DeleteOrder(saved, o.id) == Some(Saved(WithoutId([o] + prev, o.id)));
    }
  }

  /** The four-digit sequence part of an order number from a random draw in
      `[0, 1)`. */
  function SeqNumber(random: real): (r: nat)
    requires 0.0 <= random < 1.0
    ensures 1000 <= r <= 9999
  {
    (random * 9000.0).Floor + 1000
  }

  /** `BLT-YYMMDD-NNNN`: the last two digits of the year, the month and day
      padded to two digits, and the sequence number.  `monthIndex` counts
      from 0 as the clock reports it. */
  function OrderNumber(year: nat, monthIndex: nat, day: nat, random: real): string
    requires 0.0 <= random < 1.0
  {
    "BLT-" + TakeLast(NatToString(year), 2)
      + PadStart(NatToString(monthIndex + 1), 2, '0')
      + PadStart(NatToString(day), 2, '0')
      + "-" + NatToString(SeqNumber(random))
  }

  /** `s` is a field of `width` digits reading `v`. */
  predicate DigitField(s: string, width: nat, v: nat)
  {
    |s| == width && AllDigits(s) && DigitsValue(s) == v
  }

  /** The year part is the last two digits of any year from 10 on. */
  lemma YearField(year: nat)
    requires year >= 10
    ensures DigitField(TakeLast(NatToString(year), 2), 2, year % 100)
  {
    LastTwoDigits(year);
  }

  /** A month or day number from 1 to 99, zero-padded, is a two-digit field. */
  lemma PaddedField(n: nat)
    requires 1 <= n < 100
    ensures DigitField(PadStart(NatToString(n), 2, '0'), 2, n)
  {
    PaddedValue(n, 2);
    if n >= 10 {
      TwoDigitLength(n);
    }
  }

  /** The sequence number is a four-digit field. */
  lemma SeqField(random: real)
    requires 0.0 <= random < 1.0
    ensures DigitField(NatToString(SeqNumber(random)), 4, SeqNumber(random))
  {
    NatToStringValue(SeqNumber(random));
    FourDigitLength(SeqNumber(random));
  }

  /** Where the parts of `BLT-` y m d `-` n end up when y, m, d have two
      characters and n has four. */
  lemma NumberLayout(y: string, m: string, dd: string, sq: string)
    requires |y| == 2 && |m| == 2 && |dd| == 2 && |sq| == 4
    ensures var r := "BLT-" + y + m + dd + "-" + sq;
      && |r| == 15 && r[..4] == "BLT-" && r[10] == '-'
      && r[4..6] == y && r[6..8] == m && r[8..10] == dd && r[11..] == sq
  {
  }

  /** For a calendar date from year 10 on, an order number is 15 characters
      long, and the year, month, day and sequence number can be read back
      from their fixed positions. */
  lemma OrderNumberFormat(year: nat, monthIndex: nat, day: nat, random: real)
    requires 0.0 <= random < 1.0
    requires year >= 10 && monthIndex < 12 && 1 <= day <= 31
    ensures var r := OrderNumber(year, monthIndex, day, random);
      && |r| == 15
      && r[..4] == "BLT-" && r[10] == '-'
      && DigitField(r[4..6], 2, year % 100)
      && DigitField(r[6..8], 2, monthIndex + 1)
      && DigitField(r[8..10], 2, day)
      && DigitField(r[11..], 4, SeqNumber(random))
  {
    var y := TakeLast(NatToString(year), 2);
    var m := PadStart(NatToString(monthIndex + 1), 2, '0');
    var dd := PadStart(NatToString(day), 2, '0');
    var sq := NatToString(SeqNumber(random));
    YearField(year);
    PaddedField(monthIndex + 1);
    PaddedField(day);
    SeqField(random);
    NumberLayout(y, m, dd, sq);
    assert OrderNumber(year, monthIndex, day, random) == "BLT-" + y + m + dd + "-" + sq;
  }

  /** Generating an order: the editor's design and customer, the total
      length, an order number for the given date and draw, and the order
      saved at the front of the history.  The id and the date text come from
      the environment.  When saving throws (`None`), generation stops there. */
  function PlaceOrder(e: Editor, st: Stored, id: string, date: string,
                      year: nat, monthIndex: nat, day: nat, random: real): (r: (BeltOrder, Option<Stored>))
    requires 0.0 <= random < 1.0
    ensures r.0.design == e.design && r.0.customer == e.customer
    ensures r.0.id == id && r.0.date == date
    ensures r.0.orderNumber == OrderNumber(year, monthIndex, day, random)
    ensures r.0.totalLength == TotalLength(e.design)
    ensures r.1 == SaveOrder(st, r.0)
    ensures r.1.None? <==> st.NotAList?
    ensures r.1.Some? ==> |r.1.value.orders| > 0 && r.1.value.orders[0] == r.0
  {
    var o := BeltOrder(id, OrderNumber(year, monthIndex, day, random), date, e.design, e.customer, TotalLength(e.design));
    (o, SaveOrder(st, o))
  }

  /** Loading the order just placed from the history restores the editor
      it was placed from. */
  lemma PlaceThenLoad(e: Editor, f: Editor, st: Stored, id: string, date: string,
                      year: nat, monthIndex: nat, day: nat, random: real)
    requires 0.0 <= random < 1.0
    ensures var r := PlaceOrder(e, st, id, date, year, monthIndex, day, random);
      r.1.Some? ==> LoadOrder(f, LoadOrders(r.1.value).value[0]) == e
  {
  }
}
