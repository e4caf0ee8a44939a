/** The text and position of each entry line of the shopping-list PDF, as computed by the
    loop in `generate_shopping_list_pdf` (identical in backend/recipes/utilities.py and
    backend/api/utilities.py). Drawing itself is left to the canvas and not modelled. */
module Layout {
  import opened Text
  import opened OrderedDict

  /** The column every entry is padded to. */
  const LineWidth: int := 70
  /** The x coordinate of every entry. */
  const Left: int := 80
  /** The y coordinate of the first entry. */
  const Top: int := 700
  /** The vertical distance between consecutive entries. */
  const LineStep: int := 25

  /** One `pdf.drawString(x, y, line)` call. */
  datatype Draw = Draw(x: int, y: int, text: string)

  /** The characters of an entry other than the dots: the number, the name, the amount,
      and the four characters `". "`, `" "`, `" "` around them. */
  function FixedWidth(count: nat, name: string, amount: string): nat {
    |Digits(count)| + |name| + |amount| + 4
  }

  /** The number of dots asked for; negative when the entry is wider than the column. */
  function DotCount(count: nat, name: string, amount: string): int {
    LineWidth - FixedWidth(count, name, amount)
  }

  /** `f'{count}. {name} {"." * dots} {amount}'`. A negative dot count repeats nothing,
      so the entry is then just its fixed parts. */
  function EntryLine(count: nat, name: string, amount: string): (line: string)
    ensures |line| == if FixedWidth(count, name, amount) <= LineWidth then LineWidth
                      else FixedWidth(count, name, amount)
    ensures StartsWith(line, Digits(count) + ". " + name + " ")
    ensures EndsWith(line, " " + amount)
  {
    var line := Digits(count) + ". " + name + " " + Repeat('.', DotCount(count, name, amount)) + " " + amount;
    assert line[..|Digits(count) + ". " + name + " "|] == Digits(count) + ". " + name + " ";
    assert line[|line| - |" " + amount|..] == " " + amount;
    line
  }

  /** An entry can be read back: its leading digits give the entry number, what follows
      ". " is the name, then one space, a run of dots only, one space, and the amount. */
  lemma EntryLineParts(count: nat, name: string, amount: string)
    ensures var line := EntryLine(count, name, amount);
            var n := |Digits(count)|;
            var dots := if DotCount(count, name, amount) > 0 then DotCount(count, name, amount) else 0;
            && AllDigits(line[..n])
            && ParseDigits(line[..n]) == count
            && line[n..n + 2] == ". "
            && line[n + 2..n + 2 + |name|] == name
            && line[n + 2 + |name|] == ' '
            && (forall i | n + 3 + |name| <= i < n + 3 + |name| + dots :: line[i] == '.')
            && line[n + 3 + |name| + dots] == ' '
            && line[n + 4 + |name| + dots..] == amount
  {
    var d := Digits(count);
    var dotText := Repeat('.', DotCount(count, name, amount));
    assert EntryLine(count, name, amount) == d + ". " + name + " " + dotText + " " + amount;
    EntryParts(d, name, dotText, amount);
    DigitsRoundTrip(count);
  }

  /** Where each part of `d + ". " + name + " " + dots + " " + amount` sits. */
  lemma EntryParts(d: string, name: string, dotText: string, amount: string)
    ensures var line := d + ". " + name + " " + dotText + " " + amount;
            var n := |d|;
            var k := |dotText|;
            && line[..n] == d
            && line[n..n + 2] == ". "
            && line[n + 2..n + 2 + |name|] == name
            && line[n + 2 + |name|] == ' '
            && (forall i | n + 3 + |name| <= i < n + 3 + |name| + k :: line[i] == dotText[i - (n + 3 + |name|)])
            && line[n + 3 + |name| + k] == ' '
            && line[n + 4 + |name| + k..] == amount
  {
    var head := d + ". " + name + " ";
    var tail := dotText + " " + amount;
    var line := d + ". " + name + " " + dotText + " " + amount;
    assert line == head + tail;
    assert line[..|head|] == head;
    assert line[|head|..] == tail;
    assert tail[|dotText| + 1..] == amount;
  }

  /** Entry `i` (0-based) of the list: number `i + 1`, the capitalised key, its value. */
  function Entry(list: Dict<string, string>, capitalize: string -> string, i: nat): (d: Draw)
    requires Valid(list) && i < |list.keys|
    ensures d.x == Left && d.y == Top - LineStep * i
    ensures StartsWith(d.text, Digits(i + 1) + ". " + capitalize(list.keys[i]) + " ")
    ensures EndsWith(d.text, " " + list.vals[list.keys[i]])
  {
    Draw(Left, Top - LineStep * i, EntryLine(i + 1, capitalize(list.keys[i]), list.vals[list.keys[i]]))
  }

  /** The loop of lines 44-54 (backend/recipes/utilities.py) / 46-56 (backend/api/utilities.py):
      one draw per entry, in dict order, the pen starting at (80, 700) and moving down 25
      points per entry. */
  method LayoutEntries(list: Dict<string, string>, capitalize: string -> string) returns (draws: seq<Draw>)
    requires Valid(list)
    ensures |draws| == |list.keys|
    ensures forall i | 0 <= i < |draws| :: draws[i] == Entry(list, capitalize, i)
  {
    draws := [];
    var x, y := Left, Top;
    var count := 0;
    while count < |list.keys|
      invariant 0 <= count <= |list.keys|
      invariant |draws| == count
      invariant x == Left && y == Top - LineStep * count
      invariant forall i | 0 <= i < count :: draws[i] == Entry(list, capitalize, i)
    {
      var item := list.keys[count];
      var amount := list.vals[item];
      var line := EntryLine(count + 1, capitalize(item), amount);
      draws := draws + [Draw(x, y, line)];
      y := y - LineStep;
      count := count + 1;
    }
  }
}
