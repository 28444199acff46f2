/** The two local vote ledgers (`unknownmotifs.json` and `nomotifs.json`):
    each maps a subject item id to the votes cast on it, oldest first. */
module Ledger {

  /** One vote: who cast it and when (`{"user": ..., "data": ...}`). */
  datatype Vote = Vote(user: string, data: string)

  /** Which ledger a vote goes to: "motif unknown" or "no motif". */
  datatype LedgerKind = UnknownMotifs | NoMotifs

  type Votes = map<string, seq<Vote>>

  /** The read-modify-write of one ledger: append at the end of the votes
      already recorded for `subject`, or start a one-vote list. */
  function Appended(m: Votes, subject: string, vote: Vote): (r: Votes)
    ensures r.Keys == m.Keys + {subject}
    ensures subject in m ==> r[subject] == m[subject] + [vote]
    ensures subject !in m ==> r[subject] == [vote]
    ensures forall k :: k in m && k != subject ==> r[k] == m[k]
  {
    if subject in m then m[subject := m[subject] + [vote]] else m[subject := [vote]]
  }

  /** A ledger is append-only: every subject keeps its earlier votes as a
      prefix, and the new vote is the last one recorded for `subject`. */
  lemma AppendedKeepsHistory(m: Votes, subject: string, vote: Vote)
    ensures forall k :: k in m ==> k in Appended(m, subject, vote) && m[k] <= Appended(m, subject, vote)[k]
    ensures |Appended(m, subject, vote)[subject]| == (if subject in m then |m[subject]| else 0) + 1
    ensures Appended(m, subject, vote)[subject][|Appended(m, subject, vote)[subject]| - 1] == vote
  {
  }

  /** Both ledgers together, as values. */
  datatype Ledgers = Ledgers(unknownMotifs: Votes, noMotifs: Votes)

  /** Records a vote in the ledger `kind` names; the other is untouched. */
  function Record(s: Ledgers, kind: LedgerKind, subject: string, vote: Vote): (r: Ledgers)
    ensures kind == UnknownMotifs ==> r.noMotifs == s.noMotifs
    ensures kind == NoMotifs ==> r.unknownMotifs == s.unknownMotifs
    ensures kind == UnknownMotifs ==> r.unknownMotifs == Appended(s.unknownMotifs, subject, vote)
    ensures kind == NoMotifs ==> r.noMotifs == Appended(s.noMotifs, subject, vote)
  {
    match kind
    case UnknownMotifs => s.(unknownMotifs := Appended(s.unknownMotifs, subject, vote))
    case NoMotifs => s.(noMotifs := Appended(s.noMotifs, subject, vote))
  }

  /** The ledgers as the handler sees them after loading both files. */
  class MotifLedgers {
    var unknownMotifs: Votes
    var noMotifs: Votes

    constructor (unknownMotifs: Votes, noMotifs: Votes)
      ensures State() == Ledgers(unknownMotifs, noMotifs)
    {
      this.unknownMotifs := unknownMotifs;
      this.noMotifs := noMotifs;
    }

    function State(): Ledgers
      reads this
    {
      Ledgers(unknownMotifs, noMotifs)
    }

    /** Appends `vote` under `subject` in place, as the handler does with
        `values[qid].append(...)` or `values[qid] = [...]`. */
    method Append(kind: LedgerKind, subject: string, vote: Vote)
      modifies this
      ensures State() == Record(old(State()), kind, subject, vote)
    {
      if kind == UnknownMotifs {
        if subject in unknownMotifs {
          unknownMotifs := unknownMotifs[subject := unknownMotifs[subject] + [vote]];
        } else {
          unknownMotifs := unknownMotifs[subject := [vote]];
        }
      } else {
        if subject in noMotifs {
          noMotifs := noMotifs[subject := noMotifs[subject] + [vote]];
        } else {
          noMotifs := noMotifs[subject := [vote]];
        }
      }
    }
  }
}
