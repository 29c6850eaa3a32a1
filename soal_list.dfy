/** The question-set list: the add modal's required-field check and reset,
    and the list that receives its submissions (prepended by the demo, or
    dropped by the default no-op callback). */
module SoalList {
  import opened Js

  datatype Soal = Soal(id: int, title: Str, description: Str, pdfUrl: Str)

  /** The demo's initial list. */
  const DemoItems: seq<Soal> := [
    Soal(1, "Soal Penalaran Umum 2024", "Latihan soal penalaran umum UTBK terbaru.", "/pdf/penalaran-umum-2024.pdf"),
    Soal(2, "Soal Pengetahuan Kuantitatif", "Kumpulan soal matematika dasar dan logika.", "/pdf/pengetahuan-kuantitatif.pdf"),
    Soal(3, "Soal Literasi Bahasa Indonesia", "Soal literasi dan pemahaman bacaan bahasa Indonesia.", "/pdf/literasi-bahasa-indonesia.pdf"),
    Soal(4, "Soal Penalaran Matematika", "Soal penalaran matematika untuk UTBK.", "/pdf/penalaran-matematika.pdf"),
    Soal(5, "Soal Literasi Bahasa Inggris", "Soal literasi bahasa Inggris UTBK.", "/pdf/literasi-bahasa-inggris.pdf"),
    Soal(6, "Soal Pengetahuan Umum", "Soal pengetahuan umum dan wawasan kebangsaan.", "/pdf/pengetahuan-umum.pdf")]

  /** The modal's submit: nothing unless title, description and file are all
      given; otherwise a new entry stamped with the current instant and the
      file's object URL (both supplied by the caller). The file is named by
      its object URL. */
  function Submission(title: Str, description: Str, pdfFile: Option<Str>, now: int): (s: Option<Soal>)
    ensures s.None? <==> title == [] || description == [] || pdfFile.None?
    ensures s.Some? ==> s.value == Soal(now, title, description, pdfFile.value)
  {
    if title == [] || description == [] || pdfFile.None? then None
    else Some(Soal(now, title, description, pdfFile.value))
  }

  /** The demo's `handleAddSoal`: the new entry first, the rest in order. */
  function AddSoal(s: Soal, items: seq<Soal>): (r: seq<Soal>)
    ensures |r| == |items| + 1 && r[0] == s && r[1..] == items
    ensures forall x :: x in r <==> x == s || x in items
  {
    [s] + items
  }

  /** A list with its add modal. `hasOnAdd` says whether the list was given
      an `onAdd` (the demo gives one that prepends); without one, a
      submission goes to a callback that does nothing. */
  class SoalPanel {
    var items: seq<Soal>
    var hasOnAdd: bool
    var modalOpen: bool
    var title: Str
    var description: Str
    var pdfFile: Option<Str>

    /** The demo: its initial list, with the prepending `onAdd`. */
    constructor Demo()
      ensures items == DemoItems && hasOnAdd && !modalOpen
      ensures title == [] && description == [] && pdfFile.None?
    {
      items, hasOnAdd, modalOpen := DemoItems, true, false;
      title, description, pdfFile := [], [], None;
    }

    /** A list given `items` and, or not, an `onAdd`. */
    constructor (initial: seq<Soal>, withOnAdd: bool)
      ensures items == initial && hasOnAdd == withOnAdd && !modalOpen
      ensures title == [] && description == [] && pdfFile.None?
    {
      items, hasOnAdd, modalOpen := initial, withOnAdd, false;
      title, description, pdfFile := [], [], None;
    }

    method OpenModal()
      modifies this`modalOpen
      ensures modalOpen
    {
      modalOpen := true;
    }

    /** The cancel button. */
    method CloseModal()
      modifies this`modalOpen
      ensures !modalOpen
    {
      modalOpen := false;
    }

    method SetTitle(t: Str)
      modifies this`title
      ensures title == t
    {
      title := t;
    }

    method SetDescription(d: Str)
      modifies this`description
      ensures description == d
    {
      description := d;
    }

    /** The file input, by its object URL (absent when cleared). */
    method SetFile(f: Option<Str>)
      modifies this`pdfFile
      ensures pdfFile == f
    {
      pdfFile := f;
    }

    /** The modal's submit (the form exists only while open): a missing
      field changes nothing; otherwise the entry is handed to `onAdd`, the
      three fields are cleared and the modal closes. */
    method HandleSubmit(now: int) returns (s: Option<Soal>)
      requires modalOpen
      modifies this
      ensures s == Submission(old(title), old(description), old(pdfFile), now)
      ensures hasOnAdd == old(hasOnAdd)
      ensures s.None? ==>
        && items == old(items) && modalOpen
        && title == old(title) && description == old(description) && pdfFile == old(pdfFile)
      ensures s.Some? ==>
        && items == (if hasOnAdd then AddSoal(s.value, old(items)) else old(items))
        && !modalOpen && title == [] && description == [] && pdfFile.None?
    {
      s := Submission(title, description, pdfFile, now);
      if s.None? {
        return;
      }
      if hasOnAdd {
        items := AddSoal(s.value, items);
      }
      title, description, pdfFile := [], [], None;
      modalOpen := false;
    }
  }
}
