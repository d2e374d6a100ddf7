/** The two settings rows behind the home layout and their compare-and-bump write. */
module HomeStore {
  import opened Text

  datatype Rows<+L> = Rows(layout: Option<L>, revision: Option<string>)

  datatype State<+L> = State(stored: bool, revision: nat, layout: L)

  datatype Outcome = Conflict | Written(revision: nat)

  /** A revision row that is not a run of digits counts as 0. */
  function RevisionOf(raw: Option<string>): nat {
    if raw.Some? && raw.value != "" && AllDigits(raw.value) then DecimalValue(raw.value) else 0
  }

  function ReadState<L>(rows: Rows<L>, norm: L -> L, empty: L): State<L> {
    match rows.layout
    case None => State(false, 0, empty)
    case Some(raw) => State(true, RevisionOf(rows.revision), norm(raw))
  }

  function CurrentRevision<L>(rows: Rows<L>): nat {
    if rows.layout.None? then 0 else RevisionOf(rows.revision)
  }

  /** The transaction as a function of the rows it finds. */
  function WriteRows<L>(rows: Rows<L>, expected: Option<nat>, layout: L): (Outcome, Rows<L>) {
    var current := CurrentRevision(rows);
    if expected.Some? && expected.value != current then (Conflict, rows)
    else (Written(current + 1), Rows(Some(layout), Some(Decimal(current + 1))))
  }

  /** A write is refused exactly when it carries another revision than the one a reader would get;
      otherwise the next read returns the new layout one revision later. */
  lemma WriteThenRead<L>(rows: Rows<L>, expected: Option<nat>, layout: L, norm: L -> L, empty: L)
    ensures var (outcome, after) := WriteRows(rows, expected, layout);
            var before := ReadState(rows, norm, empty);
            && (outcome == Conflict <==> expected.Some? && expected.value != before.revision)
            && (outcome == Conflict ==> after == rows)
            && (outcome != Conflict ==>
                  && outcome == Written(before.revision + 1)
                  && ReadState(after, norm, empty) == State(true, before.revision + 1, norm(layout)))
  {
    DecimalRoundTrip(CurrentRevision(rows) + 1);
  }

  /** The settings table as the server updates it. */
  class Table<L> {
    var layoutRow: Option<L>
    var revisionRow: Option<string>

    ghost function Contents(): Rows<L>
      reads this
    {
      Rows(layoutRow, revisionRow)
    }

    constructor ()
      ensures Contents() == Rows(None, None)
    {
      layoutRow, revisionRow := None, None;
    }

    /** `writeHomeLayout` */
    method Write(expected: Option<nat>, layout: L) returns (outcome: Outcome)
      modifies this
      ensures (outcome, Contents()) == WriteRows(old(Contents()), expected, layout)
    {
      var current := if layoutRow.None? then 0 else RevisionOf(revisionRow);
      if expected.Some? && expected.value != current {
        return Conflict;
      }
      var revision := current + 1;
      layoutRow := Some(layout);
      revisionRow := Some(Decimal(revision));
      return Written(revision);
    }

    /** `readLayout` */
    method Read(norm: L -> L, empty: L) returns (state: State<L>)
      ensures state == ReadState(Contents(), norm, empty)
    {
      if layoutRow.None? {
        return State(false, 0, empty);
      }
      return State(true, RevisionOf(revisionRow), norm(layoutRow.value));
    }
  }
}
