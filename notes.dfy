/** The notes window's formatting toolbar: font family, a font size moved in
    steps of two within [10, 32], bold and italic toggles and an alignment
    setter. */
module NotesFormatting {
  datatype Align = Left | Center | Right

  const MinFontSize := 10
  const MaxFontSize := 32
  const FontStep := 2

  /** The toolbar's five state fields. */
  datatype NotesFormat = NotesFormat(fontSize: int, fontFamily: string, isBold: bool, isItalic: bool, textAlign: Align)

  const InitialFormat := NotesFormat(14, "font-sans", false, false, Left)

  /** The minus button: two points smaller, but never below 10. */
  function Decrease(f: NotesFormat): (r: NotesFormat)
    ensures r.fontSize >= MinFontSize
    ensures r.fontSize <= f.fontSize || r.fontSize == MinFontSize
    ensures f.fontSize - FontStep >= MinFontSize ==> r.fontSize == f.fontSize - FontStep
    ensures f.fontSize - FontStep < MinFontSize ==> r.fontSize == MinFontSize
    ensures r.(fontSize := f.fontSize) == f
  {
    f.(fontSize := if f.fontSize - FontStep < MinFontSize then MinFontSize else f.fontSize - FontStep)
  }

  /** The plus button: two points larger, but never above 32. */
  function Increase(f: NotesFormat): (r: NotesFormat)
    ensures r.fontSize <= MaxFontSize
    ensures r.fontSize >= f.fontSize || r.fontSize == MaxFontSize
    ensures f.fontSize + FontStep <= MaxFontSize ==> r.fontSize == f.fontSize + FontStep
    ensures f.fontSize + FontStep > MaxFontSize ==> r.fontSize == MaxFontSize
    ensures r.(fontSize := f.fontSize) == f
  {
    f.(fontSize := if f.fontSize + FontStep > MaxFontSize then MaxFontSize else f.fontSize + FontStep)
  }

  function ToggleBold(f: NotesFormat): (r: NotesFormat)
    ensures r.isBold != f.isBold && r.(isBold := f.isBold) == f
  {
    f.(isBold := !f.isBold)
  }

  function ToggleItalic(f: NotesFormat): (r: NotesFormat)
    ensures r.isItalic != f.isItalic && r.(isItalic := f.isItalic) == f
  {
    f.(isItalic := !f.isItalic)
  }

  /** One of the three alignment buttons. */
  function SetAlign(f: NotesFormat, a: Align): (r: NotesFormat)
    ensures r.textAlign == a && r.(textAlign := f.textAlign) == f
  {
    f.(textAlign := a)
  }

  /** The font-family select. */
  function SetFamily(f: NotesFormat, family: string): (r: NotesFormat)
    ensures r.fontFamily == family && r.(fontFamily := f.fontFamily) == f
  {
    f.(fontFamily := family)
  }

  /** The toolbar's controls. */
  datatype NotesClick =
    | MinusClick
    | PlusClick
    | BoldClick
    | ItalicClick
    | AlignClick(align: Align)
    | FamilyChange(family: string)

  function Click(f: NotesFormat, c: NotesClick): NotesFormat
  {
    match c
    case MinusClick => Decrease(f)
    case PlusClick => Increase(f)
    case BoldClick => ToggleBold(f)
    case ItalicClick => ToggleItalic(f)
    case AlignClick(a) => SetAlign(f, a)
    case FamilyChange(family) => SetFamily(f, family)
  }

  function ClickAll(f: NotesFormat, cs: seq<NotesClick>): NotesFormat
    decreases |cs|
  {
    if cs == [] then f else ClickAll(Click(f, cs[0]), cs[1..])
  }

  /** The sizes the toolbar can show: even, from 10 to 32. */
  predicate SizeOnGrid(size: int)
  {
    MinFontSize <= size <= MaxFontSize && size % 2 == 0
  }

  /** Every click keeps the size on the grid. */
  lemma ClickKeepsSizeOnGrid(f: NotesFormat, c: NotesClick)
    requires SizeOnGrid(f.fontSize)
    ensures SizeOnGrid(Click(f, c).fontSize)
  {
  }

  /** From the initial 14, any sequence of clicks leaves an even size between
      10 and 32. */
  lemma {:induction false} ClicksKeepSizeOnGrid(f: NotesFormat, cs: seq<NotesClick>)
    requires SizeOnGrid(f.fontSize)
    ensures SizeOnGrid(ClickAll(f, cs).fontSize)
    decreases |cs|
  {
    if cs != [] {
      ClickKeepsSizeOnGrid(f, cs[0]);
      ClicksKeepSizeOnGrid(Click(f, cs[0]), cs[1..]);
    }
  }

  lemma InitialSizeOnGrid()
    ensures SizeOnGrid(InitialFormat.fontSize)
    ensures forall cs :: SizeOnGrid(ClickAll(InitialFormat, cs).fontSize)
  {
    forall cs {
      ClicksKeepSizeOnGrid(InitialFormat, cs);
    }
  }

  /** Enough clicks on one button reach the end of the range and stay there:
      eleven minus clicks from any size on the grid reach 10, eleven plus
      clicks reach 32. */
  lemma {:induction false} RepeatedClicksSaturate(f: NotesFormat, n: nat)
    requires SizeOnGrid(f.fontSize)
    ensures n >= (f.fontSize - MinFontSize) / 2 ==> ClickAll(f, seq(n, _ => MinusClick)).fontSize == MinFontSize
    ensures n >= (MaxFontSize - f.fontSize) / 2 ==> ClickAll(f, seq(n, _ => PlusClick)).fontSize == MaxFontSize
    decreases n
  {
    if n > 0 {
      assert seq(n, _ => MinusClick) == [MinusClick] + seq(n - 1, _ => MinusClick);
      assert seq(n, _ => PlusClick) == [PlusClick] + seq(n - 1, _ => PlusClick);
      RepeatedClicksSaturate(Decrease(f), n - 1);
      RepeatedClicksSaturate(Increase(f), n - 1);
    }
  }

  /** Toggling bold, or italic, twice restores the format. */
  lemma ToggleTwiceRestores(f: NotesFormat)
    ensures ToggleBold(ToggleBold(f)) == f
    ensures ToggleItalic(ToggleItalic(f)) == f
  {
  }

  /** Choosing an alignment twice is choosing it once, and it leaves the font
      settings as they were. */
  lemma SetAlignIdempotent(f: NotesFormat, a: Align)
    ensures SetAlign(SetAlign(f, a), a) == SetAlign(f, a)
    ensures var r := SetAlign(f, a);
      r.fontSize == f.fontSize && r.fontFamily == f.fontFamily && r.isBold == f.isBold && r.isItalic == f.isItalic
  {
  }

  /** Inside the range, minus undoes plus and plus undoes minus. */
  lemma PlusMinusCancel(f: NotesFormat)
    requires SizeOnGrid(f.fontSize)
    ensures f.fontSize < MaxFontSize ==> Decrease(Increase(f)) == f
    ensures f.fontSize > MinFontSize ==> Increase(Decrease(f)) == f
  {
  }

  /** The notes component: its formatting fields, set by the toolbar. */
  class NotesContent {
    var fontSize: int
    var fontFamily: string
    var isBold: bool
    var isItalic: bool
    var textAlign: Align

    function State(): NotesFormat
      reads this
    {
      NotesFormat(fontSize, fontFamily, isBold, isItalic, textAlign)
    }

    ghost predicate Valid()
      reads this
    {
      SizeOnGrid(fontSize)
    }

    constructor ()
      ensures Valid() && State() == InitialFormat
    {
      fontSize, fontFamily, isBold, isItalic, textAlign := 14, "font-sans", false, false, Left;
    }

    method OnMinus()
      requires Valid()
      modifies this
      ensures Valid() && State() == Decrease(old(State()))
    {
      fontSize := if fontSize - FontStep < MinFontSize then MinFontSize else fontSize - FontStep;
    }

    method OnPlus()
      requires Valid()
      modifies this
      ensures Valid() && State() == Increase(old(State()))
    {
      fontSize := if fontSize + FontStep > MaxFontSize then MaxFontSize else fontSize + FontStep;
    }

    method OnBold()
      requires Valid()
      modifies this
      ensures Valid() && State() == ToggleBold(old(State()))
    {
      isBold := !isBold;
    }

    method OnItalic()
      requires Valid()
      modifies this
      ensures Valid() && State() == ToggleItalic(old(State()))
    {
      isItalic := !isItalic;
    }

    method OnAlign(a: Align)
      requires Valid()
      modifies this
      ensures Valid() && State() == SetAlign(old(State()), a)
    {
      textAlign := a;
    }

    method OnFamilyChange(family: string)
      requires Valid()
      modifies this
      ensures Valid() && State() == SetFamily(old(State()), family)
    {
      fontFamily := family;
    }
  }
}
