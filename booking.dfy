/** The booking page: a 10 x 18 seat grid (rows 'A'..'J', seats 0..17) with
    random availability and a category per available seat, the list of seats
    the user has picked, the summary text and price of that list, and the
    order built from it at checkout. */
module Booking {
  import opened Wrappers
  import opened Seqs
  import opened Text
  import opened Models
  import opened Cinemas
  import opened UserStore
  import Catalog

  const RowCount := 10
  const SeatsPerRow := 18
  const PricePerSeat := 890
  const PricePerVipSeat := 1290

  /** The row letter of row index `i` (`rows[i]`). */
  function RowLetter(i: nat): char
    requires i < RowCount
  {
    ('A' as int + i) as char
  }

  /** The grid cell of row index `r`, seat `c` (`${rows[r]}-${c}`). */
  function Cell(r: nat, c: nat): SeatKey
    requires r < RowCount
  {
    (RowLetter(r), c as int)
  }

  /** The row index a key's letter stands for (`'A'` is 0). */
  function RowOf(k: SeatKey): int {
    k.0 as int - 'A' as int
  }

  /** `k` is one of the cells of rows before `r`, or of row `r` before seat `c`:
      the cells the row-by-row, seat-by-seat walk has written. */
  predicate InGrid(k: SeatKey, r: nat, c: nat) {
    0 <= RowOf(k) < RowCount && 0 <= k.1 < SeatsPerRow && (RowOf(k) < r || (RowOf(k) == r && k.1 < c))
  }

  lemma CellInGrid(r: nat, c: nat)
    requires r < RowCount && c < SeatsPerRow
    ensures InGrid(Cell(r, c), r, c + 1) && !InGrid(Cell(r, c), r, c)
    ensures forall r': nat, c': nat :: r' < RowCount && (r' != r || c' != c) ==> Cell(r', c') != Cell(r, c)
  {
  }

  datatype SeatType = Standard | Vip | Love | Disability

  /** A picked seat: its row letter, 0-based seat index and category. (The
      source also stores `isSelected` and `isAvailable`, always true.) */
  datatype Seat = Seat(row: char, seatNumber: int, kind: SeatType)

  /** Grid cells are keyed by row letter and seat index (`${row}-${seatIndex}`). */
  type SeatKey = (char, int)

  /** The category rule, in priority order: rows F-H are VIP, even seats of
      row J are love seats, the two end seats of row A are for disabled
      visitors, and every other seat is standard. */
  function Category(row: char, seat: int): (t: SeatType)
    ensures t == Vip <==> row == 'F' || row == 'G' || row == 'H'
    ensures t == Love <==> row == 'J' && seat % 2 == 0
    ensures t == Disability <==> row == 'A' && (seat == 0 || seat == SeatsPerRow - 1)
  {
    if row == 'F' || row == 'G' || row == 'H' then Vip
    else if row == 'J' && seat % 2 == 0 then Love
    else if row == 'A' && (seat == 0 || seat == SeatsPerRow - 1) then Disability
    else Standard
  }

  // ------------------------------------------------------------ the grid

  /** A position the walk passes: a seat of a row, one past a row's last
      seat, or the start of the row after the last. */
  predicate WalkPos(r: nat, c: nat) {
    (r < RowCount && c <= SeatsPerRow) || (r == RowCount && c == 0)
  }

  /** The availability map once the walk has reached row `r`, seat `c`,
      starting from `m0`: the draws written one cell at a time. */
  function DrawnSeats(m0: map<SeatKey, bool>, r: nat, c: nat, available: (nat, nat) -> bool): map<SeatKey, bool>
    requires WalkPos(r, c)
    decreases r, c
  {
    if c > 0 then DrawnSeats(m0, r, c - 1, available)[Cell(r, c - 1) := available(r, c - 1)]
    else if r > 0 then DrawnSeats(m0, r - 1, SeatsPerRow, available)
    else m0
  }

  /** The category map once the walk has reached row `r`, seat `c`,
      starting from `t0`: a cell whose draw comes out available gets its
      category, one drawn unavailable keeps whatever entry it had. */
  function TypedSeats(t0: map<SeatKey, SeatType>, r: nat, c: nat, available: (nat, nat) -> bool): map<SeatKey, SeatType>
    requires WalkPos(r, c)
    decreases r, c
  {
    if c > 0 then
      var prev := TypedSeats(t0, r, c - 1, available);
      if available(r, c - 1) then prev[Cell(r, c - 1) := Category(RowLetter(r), c - 1)] else prev
    else if r > 0 then TypedSeats(t0, r - 1, SeatsPerRow, available)
    else t0
  }

  /** Up to row `r`, seat `c`, the availability map holds exactly the
      entries of `m0` and the cells passed; a passed cell holds its draw and
      every other entry is as in `m0`. */
  lemma {:induction false} DrawnAt(m0: map<SeatKey, bool>, r: nat, c: nat, available: (nat, nat) -> bool, k: SeatKey)
    requires WalkPos(r, c)
    ensures k in DrawnSeats(m0, r, c, available) <==> k in m0 || InGrid(k, r, c)
    ensures k in DrawnSeats(m0, r, c, available) ==>
      DrawnSeats(m0, r, c, available)[k] == if InGrid(k, r, c) then available(RowOf(k), k.1) else m0[k]
    decreases r, c
  {
    if c > 0 {
      DrawnAt(m0, r, c - 1, available, k);
      CellInGrid(r, c - 1);
      assert InGrid(k, r, c) <==> InGrid(k, r, c - 1) || k == Cell(r, c - 1);
    } else if r > 0 {
      DrawnAt(m0, r - 1, SeatsPerRow, available, k);
      assert InGrid(k, r, 0) <==> InGrid(k, r - 1, SeatsPerRow);
    }
  }

  /** Up to row `r`, seat `c`, the category map holds the entries of `t0`
      and the passed cells drawn available; such a cell holds its category
      and every other entry is as in `t0`. */
  lemma {:induction false} TypedAt(t0: map<SeatKey, SeatType>, r: nat, c: nat, available: (nat, nat) -> bool, k: SeatKey)
    requires WalkPos(r, c)
    ensures k in TypedSeats(t0, r, c, available) <==> k in t0 || (InGrid(k, r, c) && available(RowOf(k), k.1))
    ensures k in TypedSeats(t0, r, c, available) ==>
      TypedSeats(t0, r, c, available)[k] ==
        if InGrid(k, r, c) && available(RowOf(k), k.1) then Category(k.0, k.1) else t0[k]
    decreases r, c
  {
    if c > 0 {
      TypedAt(t0, r, c - 1, available, k);
      CellInGrid(r, c - 1);
      assert InGrid(k, r, c) <==> InGrid(k, r, c - 1) || k == Cell(r, c - 1);
    } else if r > 0 {
      TypedAt(t0, r - 1, SeatsPerRow, available, k);
      assert InGrid(k, r, 0) <==> InGrid(k, r - 1, SeatsPerRow);
    }
  }

  /** After the whole walk every cell of the grid holds its draw, and every
      cell drawn available holds its category. */
  lemma DrawnGrid(m0: map<SeatKey, bool>, t0: map<SeatKey, SeatType>, available: (nat, nat) -> bool, r: nat, c: nat)
    requires r < RowCount && c < SeatsPerRow
    ensures Cell(r, c) in DrawnSeats(m0, RowCount, 0, available)
    ensures DrawnSeats(m0, RowCount, 0, available)[Cell(r, c)] == available(r, c)
    ensures available(r, c) ==>
      Cell(r, c) in TypedSeats(t0, RowCount, 0, available) &&
      TypedSeats(t0, RowCount, 0, available)[Cell(r, c)] == Category(RowLetter(r), c)
  {
    CellInGrid(r, c);
    DrawnAt(m0, RowCount, 0, available, Cell(r, c));
    TypedAt(t0, RowCount, 0, available, Cell(r, c));
  }

  /** Keys outside the grid keep their entries in both maps, no entry is
      dropped, and the only category entries that change are those of
      cells drawn available. */
  lemma DrawnOutside(m0: map<SeatKey, bool>, t0: map<SeatKey, SeatType>, available: (nat, nat) -> bool, k: SeatKey)
    ensures !InGrid(k, RowCount, 0) ==>
      (k in DrawnSeats(m0, RowCount, 0, available) <==> k in m0) &&
      (k in m0 ==> DrawnSeats(m0, RowCount, 0, available)[k] == m0[k])
    ensures k in m0 ==> k in DrawnSeats(m0, RowCount, 0, available)
    ensures k in t0 ==> k in TypedSeats(t0, RowCount, 0, available)
    ensures k in TypedSeats(t0, RowCount, 0, available) && !(k in t0 && TypedSeats(t0, RowCount, 0, available)[k] == t0[k]) ==>
      InGrid(k, RowCount, 0) && available(RowOf(k), k.1)
  {
    DrawnAt(m0, RowCount, 0, available, k);
    TypedAt(t0, RowCount, 0, available, k);
  }

  /** The walk keeps "every available cell has a category". */
  lemma DrawnKeepsCategories(m0: map<SeatKey, bool>, t0: map<SeatKey, SeatType>, r: nat, c: nat, available: (nat, nat) -> bool)
    requires WalkPos(r, c)
    requires forall k :: k in m0 && m0[k] ==> k in t0
    ensures forall k :: k in DrawnSeats(m0, r, c, available) && DrawnSeats(m0, r, c, available)[k] ==>
      k in TypedSeats(t0, r, c, available)
  {
    forall k | k in DrawnSeats(m0, r, c, available) && DrawnSeats(m0, r, c, available)[k]
      ensures k in TypedSeats(t0, r, c, available)
    {
      DrawnAt(m0, r, c, available, k);
      TypedAt(t0, r, c, available, k);
    }
  }

  // ------------------------------------------------------------ selection

  function SameCell(row: char, seatNumber: int): Seat -> bool {
    (s: Seat) => s.row == row && s.seatNumber == seatNumber
  }

  /** `selectedSeats.some(seat => seat.row === row && seat.seatNumber === n)` */
  predicate IsSelected(sel: seq<Seat>, row: char, seatNumber: int) {
    FirstIndex(sel, SameCell(row, seatNumber)).Some?
  }

  /** No cell is picked twice. */
  ghost predicate DistinctCells(sel: seq<Seat>) {
    forall i, j :: 0 <= i < j < |sel| ==> !(sel[i].row == sel[j].row && sel[i].seatNumber == sel[j].seatNumber)
  }

  /** `toggleSeat` on an available cell: removes the entry for that cell if
      there is one, else appends `s`. */
  function Toggled(sel: seq<Seat>, s: Seat): (r: seq<Seat>)
  {
    match FirstIndex(sel, SameCell(s.row, s.seatNumber))
    case None => sel + [s]
    case Some(i) => sel[..i] + sel[i + 1..]
  }

  /** Toggling flips whether the cell is picked, and keeps cells distinct. */
  lemma ToggleFlips(sel: seq<Seat>, s: Seat)
    requires DistinctCells(sel)
    ensures DistinctCells(Toggled(sel, s))
    ensures IsSelected(Toggled(sel, s), s.row, s.seatNumber) <==> !IsSelected(sel, s.row, s.seatNumber)
  {
    var p := SameCell(s.row, s.seatNumber);
    var r := Toggled(sel, s);
    match FirstIndex(sel, p)
    case None =>
      assert r[|sel|] == s;
      assert p(r[|sel|]);
    case Some(i) =>
      forall j | 0 <= j < |r| ensures !p(r[j]) {
        if j < i {
          assert r[j] == sel[j];
        } else {
          assert r[j] == sel[j + 1];
        }
      }
  }

  /** Picking a cell that was not picked and toggling it again restores the list. */
  lemma ToggleTwiceRestores(sel: seq<Seat>, s: Seat)
    requires !IsSelected(sel, s.row, s.seatNumber)
    ensures Toggled(Toggled(sel, s), s) == sel
  {
    var p := SameCell(s.row, s.seatNumber);
    var r := sel + [s];
    assert p(r[|sel|]);
    FirstIndexAt(r, p, |sel|);
    assert r[..|sel|] == sel;
  }

  // ------------------------------------------------------------ seat class

  /** The cell exists and its availability entry is true (`seatMap[seatKey]`). */
  predicate Available(seatMap: map<SeatKey, bool>, rowIndex: int, seatIndex: int) {
    0 <= rowIndex < RowCount && (RowLetter(rowIndex), seatIndex) in seatMap && seatMap[(RowLetter(rowIndex), seatIndex)]
  }

  datatype SeatClass = Selected | Unavailable | OfType(kind: SeatType)

  /** `getSeatClass` over the page state: picked first, then unavailable,
      then the cell's category ('standard' when none is recorded). */
  function ClassOf(sel: seq<Seat>, seatMap: map<SeatKey, bool>, typeMap: map<SeatKey, SeatType>,
                   rowIndex: int, seatIndex: int): (c: SeatClass)
    ensures c == Selected <==> 0 <= rowIndex < RowCount && IsSelected(sel, RowLetter(rowIndex), seatIndex)
    ensures c == Unavailable <==> c != Selected && !Available(seatMap, rowIndex, seatIndex)
    ensures c.OfType? ==> c.kind == (if (RowLetter(rowIndex), seatIndex) in typeMap
                                     then typeMap[(RowLetter(rowIndex), seatIndex)] else Standard)
  {
    if !(0 <= rowIndex < RowCount) then Unavailable
    else
      var key := (RowLetter(rowIndex), seatIndex);
      if IsSelected(sel, key.0, seatIndex) then Selected
      else if !(key in seatMap && seatMap[key]) then Unavailable
      else if key in typeMap then OfType(typeMap[key])
      else OfType(Standard)
  }

  // ---------------------------------------------------------------- price

  function SeatPrice(t: SeatType): nat {
    if t == Vip || t == Love then PricePerVipSeat else PricePerSeat
  }

  predicate IsPremium(s: Seat) { s.kind == Vip || s.kind == Love }

  /** `getTotalPrice`: the left-to-right sum (`reduce`) of the seat prices. */
  function TotalPrice(sel: seq<Seat>): nat
    decreases |sel|
  {
    if sel == [] then 0 else TotalPrice(sel[..|sel| - 1]) + SeatPrice(sel[|sel| - 1].kind)
  }

  /** The total is 1290 per VIP or love seat and 890 per other seat. */
  lemma {:induction false} TotalPriceByCategory(sel: seq<Seat>)
    ensures TotalPrice(sel) == PricePerVipSeat * Count(sel, IsPremium)
                             + PricePerSeat * (|sel| - Count(sel, IsPremium))
    decreases |sel|
  {
    if sel != [] {
      var init := sel[..|sel| - 1];
      TotalPriceByCategory(init);
      CountSnoc(init, sel[|sel| - 1], IsPremium);
      assert init + [sel[|sel| - 1]] == sel;
    }
  }

  /** Two standard seats and one VIP seat cost 890 + 890 + 1290. */
  lemma TotalPriceExample()
    ensures TotalPrice([Seat('A', 3, Standard), Seat('B', 4, Standard), Seat('F', 5, Vip)]) == 3070
  {
    var s1 := [Seat('A', 3, Standard)];
    var s2 := s1 + [Seat('B', 4, Standard)];
    var s3 := s2 + [Seat('F', 5, Vip)];
    assert s1[..0] == [];
    assert s2[..1] == s1;
    assert s3[..2] == s2;
    assert TotalPrice(s1) == 890;
    assert TotalPrice(s2) == 1780;
    assert s3 == [Seat('A', 3, Standard), Seat('B', 4, Standard), Seat('F', 5, Vip)];
  }

  // --------------------------------------------------------- summary text

  /** The sort order of `getSelectedSeatsText`: by row letter, then seat. */
  predicate SeatLe(a: Seat, b: Seat) {
    a.row < b.row || (a.row == b.row && a.seatNumber <= b.seatNumber)
  }

  ghost predicate SortedSeats(s: seq<Seat>) {
    forall i, j :: 0 <= i < j < |s| ==> SeatLe(s[i], s[j])
  }

  function Insert(x: Seat, s: seq<Seat>): (r: seq<Seat>)
    requires SortedSeats(s)
    ensures SortedSeats(r) && |r| == |s| + 1
    ensures multiset(r) == multiset(s) + multiset{x}
    decreases |s|
  {
    if s == [] || SeatLe(x, s[0]) then [x] + s
    else
      var rest := Insert(x, s[1..]);
      InsertHeadBelow(x, s, rest);
      [s[0]] + rest
  }

  lemma InsertHeadBelow(x: Seat, s: seq<Seat>, rest: seq<Seat>)
    requires s != [] && SortedSeats(s) && !SeatLe(x, s[0])
    requires SortedSeats(rest) && multiset(rest) == multiset(s[1..]) + multiset{x}
    ensures SortedSeats([s[0]] + rest)
    ensures multiset([s[0]] + rest) == multiset(s) + multiset{x}
  {
    assert s == [s[0]] + s[1..];
    forall k | 0 <= k < |rest| ensures SeatLe(s[0], rest[k]) {
      assert rest[k] in multiset(rest);
      if rest[k] != x {
        assert rest[k] in multiset(s[1..]);
        var j :| 0 <= j < |s[1..]| && s[1..][j] == rest[k];
        assert s[j + 1] == rest[k];
      }
    }
  }

  /** The sorted copy `[...selectedSeats].sort(...)`. */
  function SortSeats(s: seq<Seat>): (r: seq<Seat>)
    ensures SortedSeats(r) && |r| == |s|
    ensures multiset(r) == multiset(s)
    decreases |s|
  {
    if s == [] then []
    else
      assert s == [s[0]] + s[1..];
      Insert(s[0], SortSeats(s[1..]))
  }

  /** One row of the summary: its letter and its 1-based seat numbers. */
  datatype RowGroup = RowGroup(row: char, numbers: seq<int>)

  /** Groups a sorted list by row, turning seat indexes into 1-based numbers
      (`seatsByRow[seat.row].push(seat.seatNumber + 1)`). */
  function Group(s: seq<Seat>): (gs: seq<RowGroup>)
    ensures s == [] <==> gs == []
    ensures gs != [] ==> gs[0].row == s[0].row
    decreases |s|
  {
    if s == [] then [] else Prepend(s[0], Group(s[1..]))
  }

  /** `x` joins the first group when that group is of its row, and opens a
      group of its own otherwise. */
  function Prepend(x: Seat, rest: seq<RowGroup>): (gs: seq<RowGroup>)
    ensures gs != [] && gs[0].row == x.row
  {
    if rest != [] && rest[0].row == x.row then
      [RowGroup(x.row, [x.seatNumber + 1] + rest[0].numbers)] + rest[1..]
    else
      [RowGroup(x.row, [x.seatNumber + 1])] + rest
  }

  /** The (row, number) pairs one group spells out, in order. */
  function Spell(g: RowGroup): (r: seq<(char, int)>)
    ensures |r| == |g.numbers| && forall k :: 0 <= k < |r| ==> r[k] == (g.row, g.numbers[k])
  {
    seq(|g.numbers|, k requires 0 <= k < |g.numbers| => (g.row, g.numbers[k]))
  }

  lemma SpellCons(row: char, n: int, ns: seq<int>)
    ensures Spell(RowGroup(row, [n] + ns)) == [(row, n)] + Spell(RowGroup(row, ns))
  {
  }

  /** The (row, number) pairs a list of groups spells out, in order. */
  function Flatten(gs: seq<RowGroup>): seq<(char, int)>
    decreases |gs|
  {
    if gs == [] then [] else Spell(gs[0]) + Flatten(gs[1..])
  }

  /** The (row, number) pairs of a list of seats, numbers 1-based. */
  function Labels(s: seq<Seat>): (r: seq<(char, int)>)
    ensures |r| == |s| && forall k :: 0 <= k < |s| ==> r[k] == (s[k].row, s[k].seatNumber + 1)
  {
    seq(|s|, k requires 0 <= k < |s| => (s[k].row, s[k].seatNumber + 1))
  }

  lemma FlattenCons(g: RowGroup, rest: seq<RowGroup>)
    ensures Flatten([g] + rest) == Spell(g) + Flatten(rest)
  {
    assert ([g] + rest)[0] == g && ([g] + rest)[1..] == rest;
  }

  lemma LabelsCons(s: seq<Seat>)
    requires s != []
    ensures Labels(s) == [(s[0].row, s[0].seatNumber + 1)] + Labels(s[1..])
  {
  }

  /** Joining a group spells one more pair in front. */
  lemma PrependFlattens(x: Seat, rest: seq<RowGroup>)
    ensures Flatten(Prepend(x, rest)) == [(x.row, x.seatNumber + 1)] + Flatten(rest)
  {
    if rest != [] && rest[0].row == x.row {
      var g := RowGroup(x.row, [x.seatNumber + 1] + rest[0].numbers);
      SpellCons(x.row, x.seatNumber + 1, rest[0].numbers);
      FlattenCons(g, rest[1..]);
      FlattenCons(rest[0], rest[1..]);
      assert rest == [rest[0]] + rest[1..];
    } else {
      var g := RowGroup(x.row, [x.seatNumber + 1]);
      FlattenCons(g, rest);
      assert Spell(g) == [(x.row, x.seatNumber + 1)];
    }
  }

  /** Grouping loses, adds and reorders nothing. */
  lemma {:induction false} GroupFlattens(s: seq<Seat>)
    ensures Flatten(Group(s)) == Labels(s)
    decreases |s|
  {
    if s != [] {
      GroupFlattens(s[1..]);
      LabelsCons(s);
      PrependFlattens(s[0], Group(s[1..]));
    }
  }

  ghost predicate NonEmptyGroups(gs: seq<RowGroup>) {
    forall i :: 0 <= i < |gs| ==> gs[i].numbers != []
  }

  ghost predicate RowsIncrease(gs: seq<RowGroup>) {
    forall i, j :: 0 <= i < j < |gs| ==> gs[i].row < gs[j].row
  }

  ghost predicate Ascending(ns: seq<int>) {
    forall a, b :: 0 <= a < b < |ns| ==> ns[a] <= ns[b]
  }

  ghost predicate NumbersAscend(gs: seq<RowGroup>) {
    forall i :: 0 <= i < |gs| ==> Ascending(gs[i].numbers)
  }

  /** On a sorted list, the first group's numbers are at least the first
      seat's number. */
  lemma {:induction false} GroupHeadBound(s: seq<Seat>)
    requires SortedSeats(s) && s != []
    ensures forall k :: 0 <= k < |Group(s)[0].numbers| ==> s[0].seatNumber + 1 <= Group(s)[0].numbers[k]
    decreases |s|
  {
    var rest := Group(s[1..]);
    if rest != [] && rest[0].row == s[0].row {
      GroupHeadBound(s[1..]);
      assert SeatLe(s[0], s[1]);
      assert Group(s)[0].numbers == [s[0].seatNumber + 1] + rest[0].numbers;
    }
  }

  /** Putting a group in front of groups of later rows keeps the shape. */
  lemma PrependGroup(g: RowGroup, rest: seq<RowGroup>)
    requires NonEmptyGroups(rest) && RowsIncrease(rest) && NumbersAscend(rest)
    requires g.numbers != [] && Ascending(g.numbers)
    requires forall j :: 0 <= j < |rest| ==> g.row < rest[j].row
    ensures NonEmptyGroups([g] + rest) && RowsIncrease([g] + rest) && NumbersAscend([g] + rest)
  {
    var gs := [g] + rest;
    forall i, j | 0 <= i < j < |gs| ensures gs[i].row < gs[j].row {
      assert gs[j] == rest[j - 1];
      if i > 0 { assert gs[i] == rest[i - 1]; }
    }
  }

  /** On a sorted list every group is non-empty, the rows strictly increase
      from group to group and the numbers never decrease within a group. */
  lemma {:induction false} GroupOfSorted(s: seq<Seat>)
    requires SortedSeats(s)
    ensures NonEmptyGroups(Group(s)) && RowsIncrease(Group(s)) && NumbersAscend(Group(s))
    decreases |s|
  {
    if s != [] {
      var tail := s[1..];
      assert SortedSeats(tail);
      GroupOfSorted(tail);
      var rest := Group(tail);
      if rest != [] && rest[0].row == s[0].row {
        GroupHeadBound(tail);
        assert SeatLe(s[0], tail[0]);
        var ns := [s[0].seatNumber + 1] + rest[0].numbers;
        assert Group(s) == [RowGroup(s[0].row, ns)] + rest[1..];
        assert Ascending(rest[0].numbers);
        assert RowsIncrease(rest);
        PrependGroup(RowGroup(s[0].row, ns), rest[1..]);
      } else {
        assert Group(s) == [RowGroup(s[0].row, [s[0].seatNumber + 1])] + rest;
        if rest != [] {
          assert SeatLe(s[0], tail[0]);
          assert RowsIncrease(rest);
        }
        PrependGroup(RowGroup(s[0].row, [s[0].seatNumber + 1]), rest);
      }
    }
  }

  /** The numbers of a row as decimal text. */
  function NumberTexts(ns: seq<int>): (r: seq<string>)
    ensures |r| == |ns| && forall k :: 0 <= k < |ns| ==> r[k] == IntToString(ns[k])
  {
    seq(|ns|, k requires 0 <= k < |ns| => IntToString(ns[k]))
  }

  /** A row's summary: the letter followed by its numbers joined by ", ". */
  function RowText(g: RowGroup): (r: string)
    ensures r != [] && r[0] == g.row
  {
    [g.row] + Join(NumberTexts(g.numbers), ", ")
  }

  function RowTexts(gs: seq<RowGroup>): (r: seq<string>)
    ensures |r| == |gs| && forall k :: 0 <= k < |gs| ==> r[k] == RowText(gs[k])
  {
    seq(|gs|, k requires 0 <= k < |gs| => RowText(gs[k]))
  }

  /** `getSelectedSeatsText` */
  function SelectedSeatsText(sel: seq<Seat>): string {
    if |sel| == 0 then "" else Join(RowTexts(Group(SortSeats(sel))), "; ")
  }

  lemma JoinNonEmpty(parts: seq<string>, sep: string)
    requires parts != [] && parts[0] != ""
    ensures Join(parts, sep) != ""
  {
    if |parts| > 1 {
      assert Join(parts, sep) == parts[0] + sep + Join(parts[1..], sep);
    }
  }

  /** The summary is empty exactly when nothing is picked. */
  lemma SelectedSeatsTextEmpty(sel: seq<Seat>)
    ensures SelectedSeatsText(sel) == "" <==> sel == []
  {
    if sel != [] {
      JoinNonEmpty(RowTexts(Group(SortSeats(sel))), "; ");
    }
  }

  lemma SortExample()
    ensures SortSeats([Seat('C', 2, Standard), Seat('A', 0, Disability), Seat('A', 17, Disability)])
      == [Seat('A', 0, Disability), Seat('A', 17, Disability), Seat('C', 2, Standard)]
  {
    var a0, a17, c2 := Seat('A', 0, Disability), Seat('A', 17, Disability), Seat('C', 2, Standard);
    assert [c2, a0, a17][1..] == [a0, a17];
    assert [a0, a17][1..] == [a17];
    assert SortSeats([a17]) == [a17];
    assert SortSeats([a0, a17]) == [a0, a17];
    assert Insert(c2, []) == [c2];
    assert Insert(c2, [a17]) == [a17] + Insert(c2, [a17][1..]);
    assert Insert(c2, [a17]) == [a17, c2];
    assert Insert(c2, [a0, a17]) == [a0] + Insert(c2, [a0, a17][1..]);
  }

  lemma GroupExample()
    ensures Group([Seat('A', 0, Disability), Seat('A', 17, Disability), Seat('C', 2, Standard)])
      == [RowGroup('A', [1, 18]), RowGroup('C', [3])]
  {
    var a0, a17, c2 := Seat('A', 0, Disability), Seat('A', 17, Disability), Seat('C', 2, Standard);
    assert [a0, a17, c2][1..] == [a17, c2];
    assert [a17, c2][1..] == [c2];
    assert Group([c2]) == [RowGroup('C', [3])];
    var rest := [RowGroup('A', [18]), RowGroup('C', [3])];
    assert Group([a17, c2]) == rest;
    assert rest[1..] == [RowGroup('C', [3])];
    assert [1] + rest[0].numbers == [1, 18];
  }

  lemma RenderExample()
    ensures RowText(RowGroup('A', [1, 18])) == "A1, 18"
    ensures RowText(RowGroup('C', [3])) == "C3"
  {
    assert NatToString(18) == NatToString(1) + [DigitChar(8)];
    assert IntToString(18) == "18";
    var nums := NumberTexts([1, 18]);
    assert nums == ["1", "18"];
    assert nums[1..] == ["18"];
    assert NumberTexts([3]) == ["3"];
  }

  lemma JoinExample()
    ensures Join(RowTexts([RowGroup('A', [1, 18]), RowGroup('C', [3])]), "; ") == "A1, 18; C3"
  {
    RenderExample();
    var parts := RowTexts([RowGroup('A', [1, 18]), RowGroup('C', [3])]);
    assert parts == ["A1, 18", "C3"];
    assert parts[1..] == ["C3"];
  }

  lemma TextOfGroups(sel: seq<Seat>, gs: seq<RowGroup>)
    requires sel != [] && Group(SortSeats(sel)) == gs
    ensures SelectedSeatsText(sel) == Join(RowTexts(gs), "; ")
  {
  }

  /** Seats C-2, A-0 and A-17 read "A1, 18; C3". */
  lemma SelectedSeatsTextExample()
    ensures SelectedSeatsText([Seat('C', 2, Standard), Seat('A', 0, Disability), Seat('A', 17, Disability)])
      == "A1, 18; C3"
  {
    SortExample();
    GroupExample();
    JoinExample();
    TextOfGroups([Seat('C', 2, Standard), Seat('A', 0, Disability), Seat('A', 17, Disability)],
                 [RowGroup('A', [1, 18]), RowGroup('C', [3])]);
  }

  // ------------------------------------------------------------- checkout

  /** The seat label stored on an order: row letter and 1-based number. */
  function SeatLabel(s: Seat): string {
    [s.row] + IntToString(s.seatNumber + 1)
  }

  /** The order `onNextStep` builds from the page state. */
  function BuildOrder(movie: Movie, cinema: Cinema, sel: seq<Seat>, orderId: int, date: int, time: string): (o: Order)
    requires sel != []
    ensures o.id == orderId && o.movieId == movie.movieId && o.title == movie.title
    ensures o.runTime == movie.runTime && o.posterUrl == Some(movie.poster)
    ensures o.cinema == cinema && o.startDate == date && o.time == time
    ensures o.count == |sel| && o.pricePerItem * (|sel| as real) == TotalPrice(sel) as real
    ensures o.status == Ordered && o.rating == None && o.review == None
    ensures o.seats.Some? && |o.seats.value| == |sel|
    ensures forall k :: 0 <= k < |sel| ==> o.seats.value[k] == SeatLabel(sel[k])
  {
    Order(orderId, movie.movieId, movie.title, date, movie.runTime, cinema, |sel|,
          (TotalPrice(sel) as real) / (|sel| as real), time, Ordered, None,
          Some(seq(|sel|, k requires 0 <= k < |sel| => SeatLabel(sel[k]))), Some(movie.poster), None)
  }

  /** Where the "next" button leads. */
  datatype NextStep = Stay | OrderFailed | ToPayment(orderId: int)

  /** The booking page's state. */
  class BookingSession {
    var seatMap: map<SeatKey, bool>
    var seatTypeMap: map<SeatKey, SeatType>
    var selectedSeats: seq<Seat>
    var movie: Option<Movie>
    var selectedCinemaOption: int
    var selectedCinema: Option<Cinema>
    var selectedTime: string
    var selectedDate: int
    /** Set while the movie is being fetched. */
    var loading: bool

    /** Every available cell has a category. */
    ghost predicate Valid()
      reads this
    {
      forall k :: k in seatMap && seatMap[k] ==> k in seatTypeMap
    }

    /** A fresh page: cinema 1 chosen, 20:30, nothing picked, no grid yet.
        `today` is the timestamp of `new Date()`. */
    constructor (today: int)
      ensures Valid()
      ensures seatMap == map[] && seatTypeMap == map[] && selectedSeats == []
      ensures movie == None && selectedCinemaOption == 1 && selectedCinema == CinemaById(1)
      ensures selectedTime == "20:30" && selectedDate == today && loading
    {
      seatMap := map[];
      seatTypeMap := map[];
      selectedSeats := [];
      movie := None;
      selectedCinemaOption := 1;
      selectedCinema := CinemaById(1);
      selectedTime := "20:30";
      selectedDate := today;
      loading := true;
    }

    /** The reply of `getMovieById` for the route's id. A reply shows its body
        as the movie (a `null` body, or a body of another kind, leaves none)
        and draws the grid as `initializeSeats` does; a failed request is
        reported and the page leaves for home (`leave`). Loading ends either
        way. */
    method OnMovieReply(reply: Result<Catalog.Payload>, available: (nat, nat) -> bool) returns (leave: bool)
      requires Valid()
      modifies this`movie, this`seatMap, this`seatTypeMap, this`loading
      ensures !loading && Valid()
      ensures leave <==> reply.Failure?
      ensures reply.Failure? ==>
        movie == old(movie) && seatMap == old(seatMap) && seatTypeMap == old(seatTypeMap)
      ensures reply.Success? ==>
        && movie == (if reply.value.OneMovie? then Some(reply.value.movie) else None)
        && seatMap == DrawnSeats(old(seatMap), RowCount, 0, available)
        && seatTypeMap == TypedSeats(old(seatTypeMap), RowCount, 0, available)
    {
      if reply.Failure? {
        loading := false;
        return true;
      }
      movie := if reply.value.OneMovie? then Some(reply.value.movie) else None;
      InitializeSeats(available);
      loading := false;
      return false;
    }

    /** `initializeSeats`: `available(r, c)` is the outcome of the random
        draw for row index `r` and seat `c`. */
    method InitializeSeats(available: (nat, nat) -> bool)
      requires Valid()
      modifies this`seatMap, this`seatTypeMap
      ensures seatMap == DrawnSeats(old(seatMap), RowCount, 0, available)
      ensures seatTypeMap == TypedSeats(old(seatTypeMap), RowCount, 0, available)
      ensures Valid()
    {
      ghost var m0, t0 := seatMap, seatTypeMap;
      var r: nat := 0;
      while r < RowCount
        invariant r <= RowCount
        invariant seatMap == DrawnSeats(m0, r, 0, available)
        invariant seatTypeMap == TypedSeats(t0, r, 0, available)
      {
        var c: nat := 0;
        while c < SeatsPerRow
          invariant c <= SeatsPerRow
          invariant seatMap == DrawnSeats(m0, r, c, available)
          invariant seatTypeMap == TypedSeats(t0, r, c, available)
        {
          var key := Cell(r, c);
          seatMap := seatMap[key := available(r, c)];
          if seatMap[key] {
            seatTypeMap := seatTypeMap[key := Category(RowLetter(r), c)];
          }
          c := c + 1;
        }
        r := r + 1;
      }
      DrawnKeepsCategories(m0, t0, RowCount, 0, available);
    }

    /** `getSeatClass` over the page's state. On a consistent page every
        available cell has a recorded category, so the 'standard' fallback
        is never what decides the class. */
    function GetSeatClass(rowIndex: int, seatIndex: int): (c: SeatClass)
      reads this
      ensures c == Selected <==> 0 <= rowIndex < RowCount && IsSelected(selectedSeats, RowLetter(rowIndex), seatIndex)
      ensures c.OfType? <==> c != Selected && Available(seatMap, rowIndex, seatIndex)
      ensures Valid() && c.OfType? ==> c.kind == seatTypeMap[(RowLetter(rowIndex), seatIndex)]
    {
      ClassOf(selectedSeats, seatMap, seatTypeMap, rowIndex, seatIndex)
    }

    /** `toggleSeat`: nothing happens on an unavailable (or non-existent) cell;
        on an available one the cell's entry is removed if present, else an
        entry with the cell's category is appended. */
    method ToggleSeat(rowIndex: int, seatIndex: int)
      requires Valid()
      modifies this`selectedSeats
      ensures Valid() && seatMap == old(seatMap) && seatTypeMap == old(seatTypeMap)
      ensures !Available(seatMap, rowIndex, seatIndex) ==> selectedSeats == old(selectedSeats)
      ensures Available(seatMap, rowIndex, seatIndex) ==>
        var key := (RowLetter(rowIndex), seatIndex);
        selectedSeats == Toggled(old(selectedSeats), Seat(key.0, seatIndex, seatTypeMap[key]))
      ensures movie == old(movie) && selectedCinema == old(selectedCinema)
      ensures selectedCinemaOption == old(selectedCinemaOption)
      ensures selectedTime == old(selectedTime) && selectedDate == old(selectedDate)
    {
      if !(0 <= rowIndex < RowCount) {
        return;
      }
      var row := RowLetter(rowIndex);
      var key := (row, seatIndex);
      if !(key in seatMap && seatMap[key]) {
        return;
      }
      var seatType := seatTypeMap[key];
      var i := 0;
      while i < |selectedSeats|
        invariant 0 <= i <= |selectedSeats|
        invariant forall j :: 0 <= j < i ==> !SameCell(row, seatIndex)(selectedSeats[j])
      {
        if selectedSeats[i].row == row && selectedSeats[i].seatNumber == seatIndex {
          FirstIndexAt(selectedSeats, SameCell(row, seatIndex), i);
          selectedSeats := selectedSeats[..i] + selectedSeats[i + 1..];
          return;
        }
        i := i + 1;
      }
      selectedSeats := selectedSeats + [Seat(row, seatIndex, seatType)];
    }

    /** `getSelectedSeatsText`: empty exactly while nothing is picked. */
    function GetSelectedSeatsText(): (t: string)
      reads this
      ensures t == "" <==> selectedSeats == []
    {
      SelectedSeatsTextEmpty(selectedSeats);
      SelectedSeatsText(selectedSeats)
    }

    /** `getTotalPrice`: 1290 per VIP or love seat picked, 890 per other. */
    function GetTotalPrice(): (p: nat)
      reads this
      ensures p == PricePerVipSeat * Count(selectedSeats, IsPremium)
                 + PricePerSeat * (|selectedSeats| - Count(selectedSeats, IsPremium))
    {
      TotalPriceByCategory(selectedSeats);
      TotalPrice(selectedSeats)
    }

    /** `onNextStep`: with seats picked and a cinema chosen, builds the order
        (`orderId` is the current time in milliseconds) and hands it to the
        store. Without a loaded movie, building the order throws and the error
        is reported; the store is not touched. */
    method OnNextStep(store: Store, orderId: int) returns (next: NextStep)
      modifies store
      ensures selectedSeats == [] || selectedCinema.None? ==>
        next == Stay && store.stored == old(store.stored) && store.active == old(store.active)
      ensures selectedSeats != [] && selectedCinema.Some? && movie.None? ==>
        next == OrderFailed && store.stored == old(store.stored) && store.active == old(store.active)
      ensures selectedSeats != [] && selectedCinema.Some? && movie.Some? ==>
        var order := BuildOrder(movie.value, selectedCinema.value, selectedSeats, orderId, selectedDate, selectedTime);
        var result := AddedOrder(old(store.Users()), store.active, order);
        && store.stored == Some(result.GetOr(old(store.Users())))
        && store.active == old(store.active)
        && next == (if result.Some? then ToPayment(orderId) else OrderFailed)
    {
      if selectedSeats == [] || selectedCinema.None? {
        return Stay;
      }
      if movie.None? {
        return OrderFailed;
      }
      var order := BuildOrder(movie.value, selectedCinema.value, selectedSeats, orderId, selectedDate, selectedTime);
      var ok := store.CreateOrder(order);
      next := if ok then ToPayment(orderId) else OrderFailed;
    }

    /** `onCinemaOptionChange` */
    method OnCinemaOptionChange(cinemaId: int)
      modifies this`selectedCinemaOption, this`selectedCinema
      ensures selectedCinemaOption == cinemaId && selectedCinema == CinemaById(cinemaId)
      ensures selectedSeats == old(selectedSeats) && seatMap == old(seatMap) && seatTypeMap == old(seatTypeMap)
      ensures movie == old(movie) && selectedTime == old(selectedTime) && selectedDate == old(selectedDate)
    {
      selectedCinemaOption := cinemaId;
      selectedCinema := CinemaById(cinemaId);
    }
  }
}
