/** The Composite demo: a file-system tree in which files and folders
    answer the same questions (name, size, rendering). Object identity,
    which `Folder.remove` relies on, is an explicit `id` on every node. */
module Composite {
  import opened JavaLang
  import opened Strings
  import Sequences

  datatype Component =
    | File(id: nat, name: string, size: Int64)
    | Folder(id: nat, name: string, children: seq<Component>)

  /** A new folder has no children. */
  function NewFolder(id: nat, name: string): (f: Component)
    ensures f.Folder? && f.children == [] && f.id == id && f.name == name
  {
    Folder(id, name, [])
  }

  /** `getSize`: a file's size is its constructor argument; a folder's is
      recomputed on every call from its children. */
  function Size(c: Component): (r: int)
    ensures c.File? ==> r == c.size
    ensures c.Folder? && c.children == [] ==> r == 0
    decreases c
  {
    match c
    case File(_, _, size) => size
    case Folder(_, _, children) => TotalSize(children)
  }

  /** The running total of `Folder.getSize`'s loop over `children`. */
  function TotalSize(cs: seq<Component>): int
    decreases cs
  {
    if cs == [] then 0 else Size(cs[0]) + TotalSize(cs[1..])
  }

  lemma {:induction false} TotalSizeAppend(a: seq<Component>, b: seq<Component>)
    ensures TotalSize(a + b) == TotalSize(a) + TotalSize(b)
  {
    if a == [] {
      assert a + b == b;
    } else {
      assert (a + b)[1..] == a[1..] + b;
      TotalSizeAppend(a[1..], b);
    }
  }

  // An independent account of size: the files of a tree, in pre-order,
  // and the sum of their sizes.

  function Files(c: Component): (fs: seq<Component>)
    ensures forall k | 0 <= k < |fs| :: fs[k].File?
    decreases c
  {
    match c
    case File(_, _, _) => [c]
    case Folder(_, _, children) => FilesAll(children)
  }

  function FilesAll(cs: seq<Component>): (fs: seq<Component>)
    ensures forall k | 0 <= k < |fs| :: fs[k].File?
    decreases cs
  {
    if cs == [] then [] else Files(cs[0]) + FilesAll(cs[1..])
  }

  function SumFileSizes(fs: seq<Component>): int
    requires forall k | 0 <= k < |fs| :: fs[k].File?
  {
    if fs == [] then 0 else fs[0].size + SumFileSizes(fs[1..])
  }

  lemma {:induction false} SumFileSizesAppend(a: seq<Component>, b: seq<Component>)
    requires forall k | 0 <= k < |a| :: a[k].File?
    requires forall k | 0 <= k < |b| :: b[k].File?
    ensures SumFileSizes(a + b) == SumFileSizes(a) + SumFileSizes(b)
  {
    if a == [] {
      assert a + b == b;
    } else {
      assert (a + b)[1..] == a[1..] + b;
      SumFileSizesAppend(a[1..], b);
    }
  }

  /** A component's size is the sum of the sizes of all files reachable
      from it, however deeply they are nested. */
  lemma {:induction false} SizeIsSumOfFiles(c: Component)
    ensures Size(c) == SumFileSizes(Files(c))
    decreases c, 1
  {
    match c
    case File(_, _, _) =>
    case Folder(_, _, children) => TotalSizeIsSumOfFiles(children);
  }

  lemma {:induction false} TotalSizeIsSumOfFiles(cs: seq<Component>)
    ensures TotalSize(cs) == SumFileSizes(FilesAll(cs))
    decreases cs, 0
  {
    if cs != [] {
      SizeIsSumOfFiles(cs[0]);
      TotalSizeIsSumOfFiles(cs[1..]);
      SumFileSizesAppend(Files(cs[0]), FilesAll(cs[1..]));
    }
  }

  /** Whether `other` is the same object as `target`. */
  function SameObject(target: Component): Component -> bool {
    (other: Component) => other.id == target.id
  }

  /** `Folder.add`: appends the child after the existing ones, duplicates
      included, and the folder grows by the child's size. */
  function Add(folder: Component, child: Component): (r: Component)
    requires folder.Folder?
    ensures r.Folder? && r.id == folder.id && r.name == folder.name
    ensures |r.children| == |folder.children| + 1
    ensures r.children[..|folder.children|] == folder.children
    ensures r.children[|folder.children|] == child
    ensures Size(r) == Size(folder) + Size(child)
  {
    TotalSizeAppend(folder.children, [child]);
    folder.(children := folder.children + [child])
  }

  /** `Folder.remove`: deletes the first child that is the same object,
      keeps the rest in order, and shrinks the folder by that child's size;
      nothing changes when the child is absent. */
  function Remove(folder: Component, child: Component): (r: Component)
    requires folder.Folder?
    ensures r.Folder? && r.id == folder.id && r.name == folder.name
    ensures (forall k | 0 <= k < |folder.children| :: folder.children[k].id != child.id) ==> r == folder
    ensures forall i | Sequences.IsFirstMatch(folder.children, SameObject(child), i) ::
      && r.children == folder.children[..i] + folder.children[i + 1..]
      && Size(r) == Size(folder) - Size(folder.children[i])
  {
    var cs := folder.children;
    var rest := Sequences.RemoveFirst(cs, SameObject(child));
    forall i | Sequences.IsFirstMatch(cs, SameObject(child), i)
      ensures TotalSize(rest) == TotalSize(cs) - Size(cs[i])
    {
      assert cs == cs[..i] + [cs[i]] + cs[i + 1..];
      TotalSizeAppend(cs[..i] + [cs[i]], cs[i + 1..]);
      TotalSizeAppend(cs[..i], [cs[i]]);
      TotalSizeAppend(cs[..i], cs[i + 1..]);
    }
    folder.(children := rest)
  }

  // Rendering.

  const FileIcon: string := "\U{1F4C4} "
  const FolderIcon: string := "\U{1F4C1} "

  /** Four spaces per level of nesting. */
  function Indent(depth: nat): (r: string)
    ensures |r| == 4 * depth
    ensures forall k | 0 <= k < |r| :: r[k] == ' '
  {
    if depth == 0 then "" else Indent(depth - 1) + "    "
  }

  /** The line `showDetails` prints for the component itself: the
      indentation, the icon and the name, then the size in parentheses. */
  function Line(c: Component, indent: string): (r: string)
    ensures c.File? ==> r == indent + FileIcon + c.name + " (" + IntToString(c.size) + " KB)"
    ensures c.Folder? ==> r == indent + FolderIcon + c.name + " (" + IntToString(Size(c)) + " KB total)"
  {
    match c
    case File(_, name, size) => indent + FileIcon + name + " (" + IntToString(size) + " KB)"
    case Folder(_, name, _) => indent + FolderIcon + name + " (" + IntToString(Size(c)) + " KB total)"
  }

  /** `showDetails(indent)`: the component's own line first, then every
      child's rendering, four spaces further in. Every line carries at
      least the given indentation. */
  function Show(c: Component, indent: string): (lines: seq<string>)
    ensures |lines| >= 1 && lines[0] == Line(c, indent)
    ensures forall k | 0 <= k < |lines| :: indent <= lines[k]
    decreases c
  {
    match c
    case File(_, _, _) => [Line(c, indent)]
    case Folder(_, _, children) => [Line(c, indent)] + ShowAll(children, indent + "    ")
  }

  function ShowAll(cs: seq<Component>, indent: string): (lines: seq<string>)
    ensures forall k | 0 <= k < |lines| :: indent <= lines[k]
    decreases cs
  {
    if cs == [] then [] else Show(cs[0], indent) + ShowAll(cs[1..], indent)
  }

  // An independent account of rendering: the pre-order list of nodes with
  // their depths, each rendered on its own line.

  datatype Entry = Entry(node: Component, depth: nat)

  function Outline(c: Component, depth: nat): seq<Entry>
    decreases c
  {
    match c
    case File(_, _, _) => [Entry(c, depth)]
    case Folder(_, _, children) => [Entry(c, depth)] + OutlineAll(children, depth + 1)
  }

  function OutlineAll(cs: seq<Component>, depth: nat): seq<Entry>
    decreases cs
  {
    if cs == [] then [] else Outline(cs[0], depth) + OutlineAll(cs[1..], depth)
  }

  function Render(es: seq<Entry>, base: string): (lines: seq<string>)
    ensures |lines| == |es|
  {
    seq(|es|, k requires 0 <= k < |es| => Line(es[k].node, base + Indent(es[k].depth)))
  }

  lemma RenderAppend(a: seq<Entry>, b: seq<Entry>, base: string)
    ensures Render(a + b, base) == Render(a, base) + Render(b, base)
  {
  }

  /** `showDetails` prints one line per node, in pre-order, each node
      indented four spaces more than its parent. */
  lemma {:induction false} ShowIsIndentedPreOrder(c: Component, base: string, depth: nat)
    ensures Show(c, base + Indent(depth)) == Render(Outline(c, depth), base)
    decreases c, 1
  {
    match c
    case File(_, _, _) =>
    case Folder(_, _, children) =>
      assert base + Indent(depth) + "    " == base + Indent(depth + 1);
      ShowAllIsIndentedPreOrder(children, base, depth + 1);
      RenderAppend([Entry(c, depth)], OutlineAll(children, depth + 1), base);
  }

  lemma {:induction false} ShowAllIsIndentedPreOrder(cs: seq<Component>, base: string, depth: nat)
    ensures ShowAll(cs, base + Indent(depth)) == Render(OutlineAll(cs, depth), base)
    decreases cs, 0
  {
    if cs != [] {
      ShowIsIndentedPreOrder(cs[0], base, depth);
      ShowAllIsIndentedPreOrder(cs[1..], base, depth);
      RenderAppend(Outline(cs[0], depth), OutlineAll(cs[1..], depth), base);
    }
  }

  // The demo's tree, built with `Add` as the demo builds it.

  const Document: Component := File(1, "document.txt", 10)
  const Image: Component := File(2, "image.png", 250)
  const Video: Component := File(3, "video.mp4", 1500)
  const Music: Component := File(4, "music.mp3", 5)
  const Notes: Component := File(5, "notes.txt", 2)

  function Documents(): Component {
    Add(Add(NewFolder(6, "Documents"), Document), Notes)
  }

  function Media(): Component {
    var images := Add(NewFolder(8, "Images"), Image);
    var videos := Add(NewFolder(9, "Videos"), Video);
    Add(Add(Add(NewFolder(7, "Media"), images), videos), Music)
  }

  function Root(): Component {
    Add(Add(NewFolder(10, "Root"), Documents()), Media())
  }

  lemma DemoSizes()
    ensures Size(Documents()) == 12
    ensures Size(Media()) == 1755
    ensures Size(Root()) == 1767
  {
  }

  /** Adding the same file twice keeps both entries; removing it then drops
      only the first, and removing an absent file changes nothing. */
  lemma DemoDuplicates()
    ensures var f := Add(Add(Add(NewFolder(11, "Mixed"), Notes), Music), Notes);
      && f.children == [Notes, Music, Notes]
      && Remove(f, Notes).children == [Music, Notes]
      && Size(Remove(f, Notes)) == 7
      && Remove(f, Image) == f
  {
    var f := Add(Add(Add(NewFolder(11, "Mixed"), Notes), Music), Notes);
    assert f.children == [Notes, Music, Notes];
    assert Sequences.IsFirstMatch(f.children, SameObject(Notes), 0);
  }

  lemma SizeTexts()
    ensures IntToString(1767) == "1767"
    ensures IntToString(10) == "10"
  {
    assert NatToString(17) == "17";
    assert NatToString(176) == "176";
    assert NatToString(10) == "10";
  }

  /** The first line of the demo's rendering: the root folder with the
      total of every file below it. */
  lemma DemoRootLine()
    ensures Line(Root(), "") == "\U{1F4C1} Root (1767 KB total)"
  {
    DemoSizes();
    SizeTexts();
    assert Root().name == "Root";
  }

  /** The line of the first file, two levels down, with its own size. */
  lemma DemoFileLine()
    ensures Line(Document, Indent(2)) == "        \U{1F4C4} document.txt (10 KB)"
  {
    SizeTexts();
    assert Indent(2) == "        ";
  }
}
