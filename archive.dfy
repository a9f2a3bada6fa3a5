/**
 * The build context `packageDetector` hands to the remote builder: a zip
 * archive of four members, written one after another into a `ZipFile`.
 * Files are modelled by their contents, not as bytes.
 */
module Archive {
  import opened Common

  /** A file on disk: text, or a zip archive with the members written so far. */
  datatype File = Text(chars: string) | Zip(entries: seq<Entry>, closed: bool)

  /** One archive member: the name it has in the archive and the contents written under it. */
  datatype Entry = Entry(arcName: string, data: File)

  /** A directory: file name to contents. */
  type Tree = map<string, File>

  /** Where the contents of a member come from. */
  datatype Source = InMemory | TemplateFile(name: string) | ClonedFile(name: string)

  /** The archive's members, in the order they are written, with their sources. */
  const Plan: seq<(string, Source)> := [
    ("deployment-desc.yml", InMemory),
    ("main.py", TemplateFile("main.py")),
    ("feature_store.yaml", TemplateFile("feature_store.yaml")),
    ("detector.py", ClonedFile("detector.py"))
  ]

  const MemberNames: seq<string> := ["deployment-desc.yml", "main.py", "feature_store.yaml", "detector.py"]

  /** The path a file source is opened under, for the clone in directory `dir`. */
  function SourcePath(src: Source, dir: string): string
  {
    match src
    case InMemory => ""
    case TemplateFile(name) => "./template/" + name
    case ClonedFile(name) => dir + "/" + name
  }

  /** The contents a source yields, or None when its file does not exist. */
  function Resolve(src: Source, descriptor: string, template: Tree, clone: Tree): Option<File>
  {
    match src
    case InMemory => Some(Text(descriptor))
    case TemplateFile(name) => if name in template then Some(template[name]) else None
    case ClonedFile(name) => if name in clone then Some(clone[name]) else None
  }

  function ArcNames(entries: seq<Entry>): (names: seq<string>)
    ensures |names| == |entries|
    ensures forall i | 0 <= i < |entries| :: names[i] == entries[i].arcName
  {
    seq(|entries|, i requires 0 <= i < |entries| => entries[i].arcName)
  }

  /** What packaging leaves behind: the members written, and the path of the file whose opening failed, if any. */
  datatype Packed = Packed(entries: seq<Entry>, missing: Option<string>)

  /** The members `packageDetector` writes for the clone `clone` in directory `dir`; it stops at the first file that is missing. */
  function Pack(descriptor: string, template: Tree, clone: Tree, dir: string): Packed
  {
    var e1 := [Entry("deployment-desc.yml", Text(descriptor))];
    if "main.py" !in template then Packed(e1, Some("./template/main.py"))
    else
      var e2 := e1 + [Entry("main.py", template["main.py"])];
      if "feature_store.yaml" !in template then Packed(e2, Some("./template/feature_store.yaml"))
      else
        var e3 := e2 + [Entry("feature_store.yaml", template["feature_store.yaml"])];
        if "detector.py" !in clone then Packed(e3, Some(dir + "/detector.py"))
        else Packed(e3 + [Entry("detector.py", clone["detector.py"])], None)
  }

  /** The members written are the plan's first members, with their sources' contents. */
  lemma PackWritesPlan(descriptor: string, template: Tree, clone: Tree, dir: string)
    ensures var p := Pack(descriptor, template, clone, dir);
      |p.entries| <= |Plan|
      && forall i | 0 <= i < |p.entries| ::
           p.entries[i].arcName == Plan[i].0
           && Resolve(Plan[i].1, descriptor, template, clone) == Some(p.entries[i].data)
  {
    var p := Pack(descriptor, template, clone, dir);
    assert Plan[0] == ("deployment-desc.yml", InMemory);
    assert Plan[1] == ("main.py", TemplateFile("main.py"));
    assert Plan[2] == ("feature_store.yaml", TemplateFile("feature_store.yaml"));
    assert Plan[3] == ("detector.py", ClonedFile("detector.py"));
    var e1 := [Entry("deployment-desc.yml", Text(descriptor))];
    if "main.py" !in template {
      assert p.entries == e1;
    } else {
      var e2 := e1 + [Entry("main.py", template["main.py"])];
      if "feature_store.yaml" !in template {
        assert p.entries == e2;
      } else {
        var e3 := e2 + [Entry("feature_store.yaml", template["feature_store.yaml"])];
        if "detector.py" !in clone {
          assert p.entries == e3;
        } else {
          assert p.entries == e3 + [Entry("detector.py", clone["detector.py"])];
        }
      }
    }
  }

  /** Packaging succeeds iff every source exists, and otherwise reports the first missing one. */
  lemma PackReportsMissing(descriptor: string, template: Tree, clone: Tree, dir: string)
    ensures var p := Pack(descriptor, template, clone, dir);
      (p.missing.None? <==> forall i | 0 <= i < |Plan| :: Resolve(Plan[i].1, descriptor, template, clone).Some?)
      && (p.missing.None? ==> |p.entries| == |Plan|)
      && (p.missing.Some? ==>
            |p.entries| < |Plan|
            && Resolve(Plan[|p.entries|].1, descriptor, template, clone).None?
            && p.missing.value == SourcePath(Plan[|p.entries|].1, dir))
  {
    var p := Pack(descriptor, template, clone, dir);
    assert Plan[0] == ("deployment-desc.yml", InMemory);
    assert Plan[1] == ("main.py", TemplateFile("main.py"));
    assert Plan[2] == ("feature_store.yaml", TemplateFile("feature_store.yaml"));
    assert Plan[3] == ("detector.py", ClonedFile("detector.py"));
    assert SourcePath(Plan[1].1, dir) == "./template/main.py";
    assert SourcePath(Plan[2].1, dir) == "./template/feature_store.yaml";
    assert SourcePath(Plan[3].1, dir) == dir + "/detector.py";
    if "main.py" !in template {
      assert |p.entries| == 1 && p.missing == Some(SourcePath(Plan[1].1, dir));
      assert Resolve(Plan[1].1, descriptor, template, clone).None?;
    } else if "feature_store.yaml" !in template {
      assert |p.entries| == 2 && p.missing == Some(SourcePath(Plan[2].1, dir));
      assert Resolve(Plan[2].1, descriptor, template, clone).None?;
    } else if "detector.py" !in clone {
      assert |p.entries| == 3 && p.missing == Some(SourcePath(Plan[3].1, dir));
      assert Resolve(Plan[3].1, descriptor, template, clone).None?;
    } else {
      assert p.missing == None && |p.entries| == 4;
      forall i | 0 <= i < |Plan| ensures Resolve(Plan[i].1, descriptor, template, clone).Some? {
        assert i == 0 || i == 1 || i == 2 || i == 3;
      }
    }
  }

  /** A complete archive always has the same four member names, whatever the algorithm. */
  lemma PackedMemberNames(descriptor: string, template: Tree, clone: Tree, dir: string)
    requires Pack(descriptor, template, clone, dir).missing.None?
    ensures ArcNames(Pack(descriptor, template, clone, dir).entries) == MemberNames
    ensures Pack(descriptor, template, clone, dir).entries[0] == Entry("deployment-desc.yml", Text(descriptor))
  {
  }

  /** Python's `zipfile.ZipFile` opened for writing: members are appended in call order. */
  class ZipFile {
    var entries: seq<Entry>
    var closed: bool

    /** The archive file on disk as it stands. */
    function Contents(): File
      reads this
    {
      Zip(entries, closed)
    }

    constructor ()
      ensures entries == [] && !closed
    {
      entries := [];
      closed := false;
    }

    /** `writestr`: adds a member holding the given text; writing to a closed archive fails. */
    method WriteStr(arcName: string, data: string) returns (ok: bool)
      modifies this
      ensures ok == !old(closed) && closed == old(closed)
      ensures entries == if ok then old(entries) + [Entry(arcName, Text(data))] else old(entries)
    {
      ok := !closed;
      if ok {
        entries := entries + [Entry(arcName, Text(data))];
      }
    }

    /** `write`: adds a member copied from a file; fails when the file does not exist or the archive is closed. */
    method Write(source: Option<File>, arcName: string) returns (ok: bool)
      modifies this
      ensures ok == (!old(closed) && source.Some?) && closed == old(closed)
      ensures entries == if ok then old(entries) + [Entry(arcName, source.value)] else old(entries)
    {
      ok := !closed && source.Some?;
      if ok {
        entries := entries + [Entry(arcName, source.value)];
      }
    }

    method Close()
      modifies this
      ensures closed && entries == old(entries)
    {
      closed := true;
    }
  }
}
