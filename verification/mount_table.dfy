/** The kernel mount table: a sequence of rows, the last row of a path being the top of its stack. */
module MountTable {
  import opened GoStrings

  type Path = string

  /** What a mount is backed by: device number and root within it. */
  datatype Backing = Backing(dev: string, root: string)

  datatype Row = Row(path: Path, backing: Backing)

  type Table = seq<Row>

  /** The mounts stacked on a path, oldest first. */
  function Layers(rows: Table, p: Path): seq<Backing> {
    if rows == [] then []
    else Layers(rows[..|rows| - 1], p) + if rows[|rows| - 1].path == p then [rows[|rows| - 1].backing] else []
  }

  predicate Mounted(rows: Table, p: Path) {
    Layers(rows, p) != []
  }

  function Top(rows: Table, p: Path): Option<Backing> {
    var layers := Layers(rows, p);
    if layers == [] then None else Some(layers[|layers| - 1])
  }

  /** Two distinct mounted paths whose top mounts have the same backing. */
  predicate BoundTo(rows: Table, target: Path, source: Path) {
    target != source && Mounted(rows, target) && Top(rows, target) == Top(rows, source)
  }

  function Push(rows: Table, p: Path, b: Backing): Table {
    rows + [Row(p, b)]
  }

  /** Detach the top mount of p; a bare path is an error (EINVAL) and changes nothing. */
  function Pop(rows: Table, p: Path): Table {
    if rows == [] then []
    else if rows[|rows| - 1].path == p then rows[..|rows| - 1]
    else Pop(rows[..|rows| - 1], p) + [rows[|rows| - 1]]
  }

  function PopN(rows: Table, p: Path, n: nat): Table
    decreases n
  {
    if n == 0 then rows else PopN(Pop(rows, p), p, n - 1)
  }

  lemma LayersOfPush(rows: Table, p: Path, b: Backing, q: Path)
    ensures Layers(Push(rows, p, b), q) == if q == p then Layers(rows, q) + [b] else Layers(rows, q)
  {
  }

  lemma {:induction false} PopBare(rows: Table, p: Path)
    requires !Mounted(rows, p)
    ensures Pop(rows, p) == rows
  {
    if rows != [] {
      PopBare(rows[..|rows| - 1], p);
    }
  }

  lemma {:induction false} LayersOfPop(rows: Table, p: Path, q: Path)
    ensures Layers(Pop(rows, p), q) ==
            if q == p && Mounted(rows, p) then Layers(rows, q)[..|Layers(rows, q)| - 1] else Layers(rows, q)
  {
    if rows != [] {
      var front, last := rows[..|rows| - 1], rows[|rows| - 1];
      if last.path != p {
        LayersOfPop(front, p, q);
        LayersOfPush(Pop(front, p), last.path, last.backing, q);
      }
    }
  }

  lemma {:induction false} PopNBare(rows: Table, p: Path, n: nat)
    requires !Mounted(rows, p)
    ensures PopN(rows, p, n) == rows
    decreases n
  {
    if n > 0 {
      PopBare(rows, p);
      PopNBare(rows, p, n - 1);
    }
  }

  lemma {:induction false} LayersOfPopN(rows: Table, p: Path, n: nat, q: Path)
    requires q != p
    ensures Layers(PopN(rows, p, n), q) == Layers(rows, q)
    decreases n
  {
    if n > 0 {
      LayersOfPop(rows, p, q);
      LayersOfPopN(Pop(rows, p), p, n - 1, q);
    }
  }

  /** Detaching n times leaves all but the n newest layers. */
  lemma {:induction false} PopNLeaves(rows: Table, p: Path, n: nat)
    ensures var d := |Layers(rows, p)|;
            Layers(PopN(rows, p, n), p) == Layers(rows, p)[..if n <= d then d - n else 0]
    decreases n
  {
    if n > 0 {
      LayersOfPop(rows, p, p);
      PopNLeaves(Pop(rows, p), p, n - 1);
    }
  }
}
