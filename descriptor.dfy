/**
 * The deployment descriptor that `createDescriptor` writes for the remote
 * builder: a fixed header naming the application, one YAML list item per
 * line of the algorithm's requirements.txt, the platform's own Python
 * dependencies, and fixed runtime settings.
 */
module DeploymentDescriptor {
  import opened TextFiles

  function Header(name: string): string
  {
    "applicationName: " + name + "\n\n" + "language: python\nversion: 3.9\n\n" + "pythonDependencies:\n"
  }

  /** The list item for one requirements line; the line keeps the terminator the file iterator left on it. */
  function Item(line: string): string
  {
    "  - " + line + "\n"
  }

  /** The user-dependency items, in file order. */
  function Items(lines: seq<string>): string
    decreases |lines|
  {
    if lines == [] then "" else Items(lines[..|lines| - 1]) + Item(lines[|lines| - 1])
  }

  const BaseDependencies: string := "  - feast[aws,postgres]\n  - pandas\n  - cloudevents\n  - requests\n\n"

  const Footer: string := "requiresWebserver: none\nrunCommand: python main.py"

  /** Characters of the descriptor that depend on neither the name nor the requirements. */
  const FixedSize: nat := 185

  /** The descriptor for application `name` whose requirements.txt yields `lines`. */
  function Descriptor(name: string, lines: seq<string>): string
  {
    Header(name) + Items(lines) + BaseDependencies + Footer
  }

  /** Sum over the requirement lines of the size of their items, |L| + 5 each. */
  function ItemsSize(lines: seq<string>): nat
    decreases |lines|
  {
    if lines == [] then 0 else ItemsSize(lines[..|lines| - 1]) + |lines[|lines| - 1]| + 5
  }

  /** Builds the descriptor by successive appends, one per requirements line. */
  method Assemble(name: string, lines: seq<string>) returns (descriptor: string)
    ensures descriptor == Descriptor(name, lines)
  {
    descriptor := "";
    descriptor := descriptor + "applicationName: " + name + "\n\n";
    descriptor := descriptor + "language: python\nversion: 3.9\n\n";
    descriptor := descriptor + "pythonDependencies:\n";
    for i := 0 to |lines|
      invariant descriptor == Header(name) + Items(lines[..i])
    {
      assert lines[..i + 1][..i] == lines[..i];
      descriptor := descriptor + "  - " + lines[i] + "\n";
    }
    assert lines[..|lines|] == lines;
    descriptor := descriptor + "  - feast[aws,postgres]\n  - pandas\n  - cloudevents\n  - requests\n\n";
    descriptor := descriptor + "requiresWebserver: none\nrunCommand: python main.py";
  }

  lemma {:induction false} ItemsLength(lines: seq<string>)
    ensures |Items(lines)| == ItemsSize(lines)
    decreases |lines|
  {
    if lines != [] {
      ItemsLength(lines[..|lines| - 1]);
    }
  }

  /** Splitting the lines anywhere splits their items there too. */
  lemma {:induction false} ItemsSplit(lines: seq<string>, k: nat)
    requires k <= |lines|
    ensures Items(lines) == Items(lines[..k]) + Items(lines[k..])
    decreases |lines|
  {
    if k == |lines| {
      assert lines[..k] == lines && lines[k..] == [];
    } else {
      var init := lines[..|lines| - 1];
      ItemsSplit(init, k);
      assert init[..k] == lines[..k];
      var tail := lines[k..];
      assert tail[..|tail| - 1] == init[k..] && tail[|tail| - 1] == lines[|lines| - 1];
    }
  }

  /** The descriptor's length: a constant, plus the name, plus |L| + 5 for every requirements line L. */
  lemma DescriptorLength(name: string, lines: seq<string>)
    ensures |Descriptor(name, lines)| == FixedSize + |name| + ItemsSize(lines)
  {
    ItemsLength(lines);
  }

  /** The descriptor starts with the header, has the base block right after the user items, and ends with the footer. */
  lemma DescriptorLayout(name: string, lines: seq<string>)
    ensures var d, h := Descriptor(name, lines), |Header(name)|;
      |d| == h + ItemsSize(lines) + |BaseDependencies| + |Footer|
      && d[..h] == Header(name)
      && d[h..h + ItemsSize(lines)] == Items(lines)
      && d[h + ItemsSize(lines)..h + ItemsSize(lines) + |BaseDependencies|] == BaseDependencies
      && d[|d| - |Footer|..] == Footer
  {
    ItemsLength(lines);
    PartsOfFour(Header(name), Items(lines), BaseDependencies, Footer);
  }

  /** The four parts of a concatenation, sliced back out of it. */
  lemma PartsOfFour(a: string, b: string, c: string, e: string)
    ensures var d := a + b + c + e;
      |d| == |a| + |b| + |c| + |e|
      && d[..|a|] == a && d[|a|..|a| + |b|] == b && d[|a| + |b|..|a| + |b| + |c|] == c && d[|d| - |e|..] == e
  {
  }

  /** Offset in the descriptor at which the item of line `i` begins. */
  function ItemOffset(name: string, lines: seq<string>, i: nat): nat
    requires i <= |lines|
  {
    |Header(name)| + ItemsSize(lines[..i])
  }

  /** Line `i` of requirements.txt contributes exactly its item, at its offset, and before the base block. */
  lemma ItemPlacement(name: string, lines: seq<string>, i: nat)
    requires i < |lines|
    ensures var d, off := Descriptor(name, lines), ItemOffset(name, lines, i);
      off + |lines[i]| + 5 <= |Header(name)| + ItemsSize(lines) <= |d|
      && d[off..off + |lines[i]| + 5] == Item(lines[i])
  {
    ItemsAround(lines, i);
    ItemsLength(lines[..i]);
    ItemsLength(lines);
    DescriptorLength(name, lines);
    SliceOfMiddle(Header(name), Items(lines[..i]), Item(lines[i]), Items(lines[i + 1..]), BaseDependencies, Footer);
  }

  lemma ItemsAround(lines: seq<string>, i: nat)
    requires i < |lines|
    ensures Items(lines) == Items(lines[..i]) + Item(lines[i]) + Items(lines[i + 1..])
  {
    ItemsSplit(lines, i + 1);
    var upTo := lines[..i + 1];
    assert upTo[..i] == lines[..i] && upTo[i] == lines[i];
  }

  lemma SliceOfMiddle(h: string, a: string, x: string, b: string, c: string, f: string)
    ensures ((h + (a + x + b)) + c + f)[|h| + |a|..|h| + |a| + |x|] == x
  {
    assert (h + (a + x + b)) + c + f == (h + a) + x + (b + c + f);
  }

  lemma {:induction false} ItemsSizeMonotone(lines: seq<string>, i: nat, j: nat)
    requires i <= j <= |lines|
    ensures ItemsSize(lines[..i]) <= ItemsSize(lines[..j])
    decreases j - i
  {
    if i < j {
      assert lines[..j][..j - 1] == lines[..j - 1];
      ItemsSizeMonotone(lines, i, j - 1);
    }
  }

  /** The items keep file order: the item of an earlier line ends before the item of a later one begins. */
  lemma ItemsInFileOrder(name: string, lines: seq<string>, i: nat, j: nat)
    requires i < j < |lines|
    ensures ItemOffset(name, lines, i) + |lines[i]| + 5 <= ItemOffset(name, lines, j)
  {
    assert lines[..i + 1][..i] == lines[..i];
    ItemsSizeMonotone(lines, i + 1, j);
  }

  /**
   * Read back as a text file, the descriptor's first line names the
   * application, provided the name itself has no line break.
   */
  lemma FirstLineNamesApplication(name: string, lines: seq<string>)
    requires '\n' !in name
    ensures Lines(Descriptor(name, lines)) != []
    ensures Lines(Descriptor(name, lines))[0] == "applicationName: " + name + "\n"
  {
    var first := "applicationName: " + name + "\n";
    var d := Descriptor(name, lines);
    var rest := d[|first|..];
    assert d == first + rest;
    assert first[..|first| - 1] == "applicationName: " + name;
    assert '\n' !in "applicationName: ";
    LineEndOf(first, rest);
  }
}
