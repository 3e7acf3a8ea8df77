/** The multipart part list `upload` builds from its file and form arrays. */
module Multipart {
  import opened Options

  /** A file entry's value: an array of paths, or a single path. */
  datatype FileEntry = Paths(items: seq<string>) | Path(path: string)

  /** The parts for an array of paths under `name`: one `name[]` part per path, in order. */
  function ArrayParts(name: string, items: seq<string>): seq<Part>
    decreases |items|
  {
    if items == [] then []
    else ArrayParts(name, items[..|items| - 1]) + [Part(name + "[]", Handle(items[|items| - 1]))]
  }

  /** The parts for one file entry. */
  function EntryParts(name: string, entry: FileEntry): seq<Part> {
    match entry
    case Paths(items) => ArrayParts(name, items)
    case Path(path) => [Part(name, Handle(path))]
  }

  /** The parts for the file entries, in order. */
  function FileParts(files: seq<(string, FileEntry)>): seq<Part>
    decreases |files|
  {
    if files == [] then []
    else FileParts(files[..|files| - 1]) + EntryParts(files[|files| - 1].0, files[|files| - 1].1)
  }

  /** The parts for the form fields: one inline part per field, in order. */
  function FormParts(form: seq<(string, Value)>): seq<Part>
    decreases |form|
  {
    if form == [] then []
    else FormParts(form[..|form| - 1]) + [Part(form[|form| - 1].0, Inline(form[|form| - 1].1))]
  }

  /** The whole part list: the file parts, then the form parts. */
  function PartList(files: seq<(string, FileEntry)>, form: seq<(string, Value)>): seq<Part> {
    FileParts(files) + FormParts(form)
  }

  /** How many parts a file entry yields: the number of paths of an array, 1 for a single path. */
  function Width(entry: FileEntry): nat {
    match entry
    case Paths(items) => |items|
    case Path(_) => 1
  }

  /** The number of file parts: the sum of the entries' widths. */
  function PathCount(files: seq<(string, FileEntry)>): nat {
    if files == [] then 0 else Width(files[0].1) + PathCount(files[1..])
  }

  /** `upload`'s two loops. */
  method BuildMultipart(files: seq<(string, FileEntry)>, form: seq<(string, Value)>) returns (parts: seq<Part>)
    ensures parts == PartList(files, form)
  {
    parts := [];
    for i := 0 to |files|
      invariant parts == FileParts(files[..i])
    {
      var (name, entry) := files[i];
      match entry {
        case Paths(items) =>
          for j := 0 to |items|
            invariant parts == FileParts(files[..i]) + ArrayParts(name, items[..j])
          {
            parts := parts + [Part(name + "[]", Handle(items[j]))];
            assert items[..j + 1][..j] == items[..j];
          }
          assert items[..|items|] == items;
        case Path(path) =>
          parts := parts + [Part(name, Handle(path))];
      }
      assert files[..i + 1][..i] == files[..i];
    }
    assert files[..|files|] == files;
    var fileParts := parts;
    for i := 0 to |form|
      invariant parts == fileParts + FormParts(form[..i])
    {
      var (name, contents) := form[i];
      parts := parts + [Part(name, Inline(contents))];
      assert form[..i + 1][..i] == form[..i];
    }
    assert form[..|form|] == form;
  }

  /** The `j`-th part of an array entry is named `name[]` and opens the `j`-th path. */
  lemma {:induction false} ArrayPartsAt(name: string, items: seq<string>, j: nat)
    requires j < |items|
    ensures |ArrayParts(name, items)| == |items|
    ensures ArrayParts(name, items)[j] == Part(name + "[]", Handle(items[j]))
    decreases |items|
  {
    var init := items[..|items| - 1];
    if j < |items| - 1 {
      ArrayPartsAt(name, init, j);
    } else if init != [] {
      ArrayPartsAt(name, init, 0);
    }
  }

  /** The `j`-th form part carries the `j`-th form field's name and value. */
  lemma {:induction false} FormPartsAt(form: seq<(string, Value)>, j: nat)
    requires j < |form|
    ensures |FormParts(form)| == |form|
    ensures FormParts(form)[j] == Part(form[j].0, Inline(form[j].1))
    decreases |form|
  {
    var init := form[..|form| - 1];
    if j < |form| - 1 {
      FormPartsAt(init, j);
    } else if init != [] {
      FormPartsAt(init, 0);
    }
  }

  /** Splitting the entries splits the count of their parts. */
  lemma {:induction false} PathCountAppend(files: seq<(string, FileEntry)>, more: seq<(string, FileEntry)>)
    ensures PathCount(files + more) == PathCount(files) + PathCount(more)
    decreases |files|
  {
    if files != [] {
      assert (files + more)[1..] == files[1..] + more;
      PathCountAppend(files[1..], more);
    } else {
      assert files + more == more;
    }
  }

  /** There are as many file parts as the entries' widths add up to. */
  lemma {:induction false} FilePartsCount(files: seq<(string, FileEntry)>)
    ensures |FileParts(files)| == PathCount(files)
    decreases |files|
  {
    if files != [] {
      var init := files[..|files| - 1];
      var last := files[|files| - 1];
      FilePartsCount(init);
      assert files == init + [last];
      PathCountAppend(init, [last]);
      match last.1
      case Paths(items) =>
        if items != [] {
          ArrayPartsAt(last.0, items, 0);
        }
      case Path(_) =>
    }
  }

  /** The part list has one part per path of every array entry, one per single-path entry and
      one per form field; the file parts come first, every one of them an opened handle, and
      the form parts follow in the order of the form fields. */
  lemma PartListShape(files: seq<(string, FileEntry)>, form: seq<(string, Value)>)
    ensures |PartList(files, form)| == PathCount(files) + |form|
    ensures forall k :: 0 <= k < PathCount(files) ==> PartList(files, form)[k].contents.Handle?
    ensures forall j :: 0 <= j < |form| ==>
              PartList(files, form)[PathCount(files) + j] == Part(form[j].0, Inline(form[j].1))
  {
    FilePartsCount(files);
    if form != [] {
      FormPartsAt(form, 0);
    }
    forall j | 0 <= j < |form|
      ensures PartList(files, form)[PathCount(files) + j] == Part(form[j].0, Inline(form[j].1))
    {
      FormPartsAt(form, j);
    }
    forall k | 0 <= k < PathCount(files)
      ensures PartList(files, form)[k].contents.Handle?
    {
      FilePartsAreHandles(files, k);
    }
  }

  /** Every file part holds an opened handle. */
  lemma {:induction false} FilePartsAreHandles(files: seq<(string, FileEntry)>, k: nat)
    requires k < |FileParts(files)|
    ensures FileParts(files)[k].contents.Handle?
    decreases |files|
  {
    var init := files[..|files| - 1];
    var last := files[|files| - 1];
    if k < |FileParts(init)| {
      FilePartsAreHandles(init, k);
    } else {
      match last.1
      case Paths(items) =>
        if items != [] {
          ArrayPartsAt(last.0, items, 0);
        }
        ArrayPartsAt(last.0, items, k - |FileParts(init)|);
      case Path(_) =>
    }
  }

  /** A single path "doc" and two paths under "pics" give the parts doc, pics[], pics[]. */
  lemma TwoKindsOfFileEntry()
    ensures var parts := PartList([("doc", Path("/tmp/a.txt")), ("pics", Paths(["/tmp/b.jpg", "/tmp/c.jpg"]))], []);
            parts == [Part("doc", Handle("/tmp/a.txt")), Part("pics[]", Handle("/tmp/b.jpg")),
                      Part("pics[]", Handle("/tmp/c.jpg"))]
  {
    var files := [("doc", Path("/tmp/a.txt")), ("pics", Paths(["/tmp/b.jpg", "/tmp/c.jpg"]))];
    assert files[..1] == [("doc", Path("/tmp/a.txt"))];
    assert files[..1][..0] == [];
    assert FileParts(files[..1]) == [Part("doc", Handle("/tmp/a.txt"))];
    var items := ["/tmp/b.jpg", "/tmp/c.jpg"];
    assert "pics" + "[]" == "pics[]";
    assert items[..1] == ["/tmp/b.jpg"];
    assert items[..1][..0] == [];
    assert ArrayParts("pics", items[..1]) == [Part("pics[]", Handle("/tmp/b.jpg"))];
    assert ArrayParts("pics", items) == [Part("pics[]", Handle("/tmp/b.jpg")), Part("pics[]", Handle("/tmp/c.jpg"))];
  }
}
