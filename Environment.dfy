/** The world outside the package: the filesystem the drivers read and write,
    and every other fact the PHP code asks the host about (which classes are
    loaded, what an external process or library call returns, the temporary
    directory, unique ids). */
module Environment {
  import opened Wrappers
  import Errors

  datatype Node = File(contents: string, executable: bool) | Directory

  type Nodes = map<string, Node>

  /** `file_exists`: a file or a directory. */
  predicate Exists(nodes: Nodes, p: string) {
    p in nodes
  }

  /** `is_file`. */
  predicate IsFile(nodes: Nodes, p: string) {
    p in nodes && nodes[p].File?
  }

  /** `is_dir`. */
  predicate IsDir(nodes: Nodes, p: string) {
    p in nodes && nodes[p].Directory?
  }

  /** `file_exists($p) && is_executable($p)`. */
  predicate IsExecutable(nodes: Nodes, p: string) {
    p in nodes && nodes[p].File? && nodes[p].executable
  }

  /** `file_put_contents`: creates or overwrites a file; fails on a directory. */
  function Written(nodes: Nodes, p: string, contents: string): (r: Nodes)
    ensures IsDir(nodes, p) ==> r == nodes
    ensures !IsDir(nodes, p) ==> IsFile(r, p) && r[p].contents == contents
    ensures forall q :: q != p ==> (q in r <==> q in nodes)
    ensures forall q :: q != p && q in nodes ==> r[q] == nodes[q]
  {
    if IsDir(nodes, p) then nodes else nodes[p := File(contents, false)]
  }

  /** The save step of a conversion, inside the driver's `try` block: the
      library cannot write onto a directory, so the host's error (`refusal`
      is its message) is caught and wrapped as a conversion failure with no
      change; otherwise the output path holds the bytes and is answered. */
  function Saved(nodes: Nodes, p: string, bytes: string, refusal: string): (r: (Result<string, Errors.Error>, Nodes))
    ensures IsDir(nodes, p) ==> r == (Err(Errors.Failed(refusal)), nodes)
    ensures !IsDir(nodes, p) ==> r.0 == Ok(p) && IsFile(r.1, p) && r.1[p].contents == bytes
    ensures forall q :: q != p ==> (q in r.1 <==> q in nodes) && (q in nodes ==> r.1[q] == nodes[q])
  {
    if IsDir(nodes, p) then (Err(Errors.Failed(refusal)), nodes) else (Ok(p), Written(nodes, p, bytes))
  }

  /** `mkdir($d, 0755, true)` guarded by `! is_dir($d)`: creates the directory
      when nothing is there. */
  function MadeDirectory(nodes: Nodes, d: string): (r: Nodes)
    ensures Exists(nodes, d) ==> r == nodes
    ensures !Exists(nodes, d) ==> IsDir(r, d) && r - {d} == nodes
  {
    if Exists(nodes, d) then nodes else nodes[d := Directory]
  }

  /** `rename`: moves what is at `source` to `target`, replacing what was
      there; a missing source or a rename onto itself changes nothing. */
  function Renamed(nodes: Nodes, source: string, target: string): (r: Nodes)
    ensures source !in nodes || source == target ==> r == nodes
    ensures source in nodes && source != target ==>
      source !in r && target in r && r[target] == nodes[source]
    ensures forall q :: q != source && q != target ==> (q in r <==> q in nodes) && (q in nodes ==> r[q] == nodes[q])
  {
    if source !in nodes || source == target then nodes
    else (nodes - {source})[target := nodes[source]]
  }

  /** `unlink`: removes a file; directories and missing paths are left alone. */
  function Unlinked(nodes: Nodes, p: string): (r: Nodes)
    ensures !IsFile(r, p)
    ensures IsFile(nodes, p) ==> r == nodes - {p}
    ensures !IsFile(nodes, p) ==> r == nodes
  {
    if IsFile(nodes, p) then nodes - {p} else nodes
  }

  /** `copy`: a byte copy of a file to the target; nothing happens when the
      source is not a file. */
  function Copied(nodes: Nodes, source: string, target: string): (r: Nodes)
    ensures IsFile(nodes, source) && !IsDir(nodes, target) ==>
      IsFile(r, target) && r[target].contents == nodes[source].contents
    ensures !IsFile(nodes, source) ==> r == nodes
    ensures IsDir(nodes, target) ==> r == nodes
    ensures forall q :: q != target ==> (q in r <==> q in nodes) && (q in nodes ==> r[q] == nodes[q])
  {
    if IsFile(nodes, source) then Written(nodes, target, nodes[source].contents) else nodes
  }

  /** The filesystem, a single mutable object shared by every driver. */
  class FileSystem {
    var nodes: Nodes

    constructor (initial: Nodes)
      ensures nodes == initial
    {
      nodes := initial;
    }

    method Write(p: string, contents: string)
      modifies this
      ensures nodes == Written(old(nodes), p, contents)
    {
      nodes := Written(nodes, p, contents);
    }

    method MakeDirectory(d: string)
      modifies this
      ensures nodes == MadeDirectory(old(nodes), d)
    {
      nodes := MadeDirectory(nodes, d);
    }

    method Rename(source: string, target: string)
      modifies this
      ensures nodes == Renamed(old(nodes), source, target)
    {
      nodes := Renamed(nodes, source, target);
    }

    method Unlink(p: string)
      modifies this
      ensures nodes == Unlinked(old(nodes), p)
    {
      nodes := Unlinked(nodes, p);
    }

    method Copy(source: string, target: string)
      modifies this
      ensures nodes == Copied(old(nodes), source, target)
    {
      nodes := Copied(nodes, source, target);
    }
  }

  /** Which optional PHP libraries are installed (`class_exists`). */
  datatype Libraries = Libraries(
    browsershot: bool,
    phpWord: bool,
    dompdf: bool,
    tcpdf: bool,
    mpdf: bool,
    gotenberg: bool)

  /** What a call into a rendering library or remote service does: it
      produces the bytes of the document, or throws with a message. */
  datatype Render = Rendered(bytes: string) | Threw(message: string)

  /** What running the office suite's command line does: whether it exits
      successfully, what it prints on its error stream, and whether it leaves
      the converted document (with these bytes) in the output directory. */
  datatype ProcessRun = ProcessRun(successful: bool, errorOutput: string, producesPdf: bool, pdf: string)

  /** Every answer the host gives that the model cannot compute. */
  datatype Host = Host(
    libraries: Libraries,
    whichFindsBinary: bool,      // `which <binary>` exits successfully
    gotenbergHealthy: bool,      // the service answers its health probe with 200
    process: ProcessRun,         // the office suite's run
    render: Render,              // the library or service call of a conversion
    saveRefusal: string,         // the message of the error a save onto a directory raises
    tempDir: string,             // sys_get_temp_dir()
    uniqueId: string,            // uniqid(prefix, true) without its prefix
    appRoot: string,             // base_path()
    packageParent: string,       // dirname(__DIR__, 4) of the driver's source directory
    packageGrandparent: string)  // dirname(__DIR__, 5)
}
