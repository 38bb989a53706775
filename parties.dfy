/** Companies and the documents they hold and sign (`Company`, `Document`).

    A company is one of two kinds (`Company1`, `Company2`): the `Role` tag. It keeps the documents
    in its custody in a list that may hold the same document more than once. A document refers to
    the company on side 1 and the one on side 2, and carries one signature flag per kind of
    company. Which flag a signature sets depends on the signer's kind, not on the side it is on. */
module Parties {
  import opened Lists

  /** The kind of a company: `First` for a `Company1`, `Second` for a `Company2`. */
  datatype Role = First | Second

  /** The two signature flags of a document as a value (`signing1`, `signing2`). */
  datatype Signatures = Signatures(signing1: bool, signing2: bool)
  {
    /** The flag that a company of kind `r` sets and reads. */
    function Has(r: Role): bool
    {
      if r == First then signing1 else signing2
    }

    /** The flags after a company of kind `r` signs. */
    function With(r: Role): (s: Signatures)
      ensures s.Has(r)
      ensures forall q :: q != r ==> s.Has(q) == Has(q)
    {
      if r == First then this.(signing1 := true) else this.(signing2 := true)
    }

    /** Exactly one of the two flags is set. */
    predicate Partial()
    {
      signing1 != signing2
    }
  }

  /** Signing twice with the same kind is signing once, and a signature of one kind never clears a flag. */
  lemma WithIdempotentAndMonotone(s: Signatures, r: Role, q: Role)
    ensures s.With(r).With(r) == s.With(r)
    ensures s.Has(q) ==> s.With(r).Has(q)
  {
  }

  /** Signatures of the two kinds, in either order, set both flags. */
  lemma BothKindsSignFully(s: Signatures)
    ensures s.With(First).With(Second) == Signatures(true, true)
    ensures s.With(Second).With(First) == Signatures(true, true)
  {
  }

  class Company {
    const role: Role
    var documents: seq<Document>

    /** A new company holds no documents. */
    constructor (role: Role)
      ensures this.role == role && documents == []
    {
      this.role := role;
      documents := [];
    }

    /** `isContainsDocument`: the document is somewhere in this company's custody list; never for `null`. */
    predicate ContainsDocument(d: Document?)
      reads this
      ensures ContainsDocument(d) <==> d != null && exists i :: 0 <= i < |documents| && documents[i] == d
    {
      d != null && d in documents
    }

    /** `addDocument`: one more occurrence at the end, even if the document is already held. */
    method AddDocument(d: Document)
      modifies this
      ensures documents == old(documents) + [d]
    {
      documents := documents + [d];
    }

    /** `removeDocument`: the first occurrence goes; an absent document (or `null`) changes nothing. */
    method RemoveDocument(d: Document?)
      modifies this
      ensures d == null ==> documents == old(documents)
      ensures d != null ==> documents == RemoveFirst<Document>(old(documents), d)
      ensures d != null ==> multiset(documents) == multiset(old(documents)) - multiset{d}
    {
      if d != null {
        RemoveFirstMultiset<Document>(documents, d);
        documents := RemoveFirst<Document>(documents, d);
      }
    }

    /** `createDocument`: a new unsigned document with this company on side 1 and `other` on side 2,
        added to this company's custody and to no one else's. The creation time is a parameter. */
    method CreateDocument(other: Company?, date: int) returns (d: Document)
      modifies this
      ensures fresh(d)
      ensures d.company1 == this && d.company2 == other && d.date == date
      ensures d.Sigs() == Signatures(false, false)
      ensures documents == old(documents) + [d]
    {
      d := new Document(this, other, date);
      AddDocument(d);
    }

    /** `changeDocument`: a company that is not yet side 1 takes side 1, the old side 1 becomes side 2,
        both signatures are cleared and the document is added to this company's custody (again, if it
        was already there). A company that already is side 1 changes nothing. `null` gives `null`. */
    method ChangeDocument(d: Document?) returns (r: Document?)
      requires d != null ==> d.company1 != null
      modifies this, d
      ensures r == d
      ensures d == null ==> documents == old(documents)
      ensures d != null && old(d.company1) == this ==>
        documents == old(documents) && unchanged(d)
      ensures d != null && old(d.company1) != this ==>
        && d.company1 == this && d.company2 == old(d.company1)
        && d.Sigs() == Signatures(false, false)
        && documents == old(documents) + [d]
    {
      if d == null {
        return null;
      }
      if d.company1 != this {
        d.SetCompany2(d.company1);
        d.SetCompany1(this);
        d.ResetSigning();
        AddDocument(d);
      }
      r := d;
    }

    /** `transferDocument`: the receiver gets one more occurrence, then this company loses its first one.
        The document itself is not touched. A transfer to itself keeps the document at the end. */
    method TransferDocument(d: Document, c: Company)
      modifies this, c
      ensures c != this ==> c.documents == old(c.documents) + [d]
      ensures c != this ==> documents == RemoveFirst(old(documents), d)
      ensures c == this ==> documents == RemoveFirst(old(documents) + [d], d)
    {
      c.AddDocument(d);
      RemoveDocument(d);
    }
  }

  /** What a transfer between two companies does to custody: the occurrences across the pair are kept
      when the sender held the document, and the receiver holds it afterwards in every case. */
  lemma {:induction false} TransferKeepsCustody(sender: seq<Document>, receiver: seq<Document>, d: Document)
    requires d in sender
    ensures multiset(RemoveFirst(sender, d)) + multiset(receiver + [d]) == multiset(sender) + multiset(receiver)
  {
    RemoveFirstMultiset(sender, d);
    assert multiset(receiver + [d]) == multiset(receiver) + multiset{d};
    assert multiset(sender)[d] >= 1;
  }

  class Document {
    var company1: Company?
    var company2: Company?
    var signing1: bool
    var signing2: bool
    /** Creation time in seconds; in Java `LocalDateTime.now()` at construction. */
    const date: int

    /** A new document: the two sides as given, no signatures. */
    constructor (company1: Company?, company2: Company?, date: int)
      ensures this.company1 == company1 && this.company2 == company2 && this.date == date
      ensures !signing1 && !signing2
    {
      this.company1 := company1;
      this.company2 := company2;
      this.date := date;
      signing1, signing2 := false, false;
    }

    function Sigs(): (s: Signatures)
      reads this
      ensures s.signing1 == signing1 && s.signing2 == signing2
    {
      Signatures(signing1, signing2)
    }

    method SetCompany1(c: Company?)
      modifies this
      ensures company1 == c && company2 == old(company2) && Sigs() == old(Sigs())
    {
      company1 := c;
    }

    method SetCompany2(c: Company?)
      modifies this
      ensures company2 == c && company1 == old(company1) && Sigs() == old(Sigs())
    {
      company2 := c;
    }

    /** `isContainsCompany`. The source tests side 1 for `null` twice and side 2 never, so a document
        whose side 1 is unset contains no company at all, not even its side 2. */
    predicate ContainsCompany(c: Company?)
      reads this
      ensures ContainsCompany(c) ==> c != null && (c == company1 || c == company2)
      ensures c != null && company1 != null && (c == company1 || c == company2) ==> ContainsCompany(c)
      ensures company1 == null ==> !ContainsCompany(c)
    {
      if c == null || company1 == null || company1 == null then false
      else c == company1 || c == company2
    }

    /** `sign`: only when the signer holds the document, the flag of the signer's kind is set; the other
        flag and both sides stay. */
    method Sign(c: Company)
      modifies this
      ensures Sigs() == if c.ContainsDocument(this) then old(Sigs()).With(c.role) else old(Sigs())
      ensures company1 == old(company1) && company2 == old(company2)
    {
      if !c.ContainsDocument(this) {
        return;
      }
      if c.role == First {
        signing1 := true;
      } else {
        signing2 := true;
      }
    }

    /** `isSigning(company)`: the flag of the company's kind; `false` for `null`. */
    predicate IsSignedBy(c: Company?)
      reads this
      ensures IsSignedBy(c) <==> c != null && Sigs().Has(c.role)
    {
      if c == null then false
      else if c.role == First then signing1
      else signing2
    }

    /** `isSigning()`: side 1's kind and side 2's kind have both signed. */
    predicate IsSigned()
      reads this
      ensures IsSigned() ==> company1 != null && company2 != null
      ensures IsSigned() <==> IsSignedBy(company1) && IsSignedBy(company2)
    {
      IsSignedBy(company1) && IsSignedBy(company2)
    }

    /** `isPartiallySigned`: exactly one of the two flags. */
    predicate IsPartiallySigned()
      reads this
      ensures IsPartiallySigned() <==> (signing1 && !signing2) || (!signing1 && signing2)
      ensures IsPartiallySigned() == Sigs().Partial()
    {
      signing1 != signing2
    }

    /** `resetSigning`: both flags cleared, nothing else touched. */
    method ResetSigning()
      modifies this
      ensures Sigs() == Signatures(false, false)
      ensures company1 == old(company1) && company2 == old(company2)
    {
      signing1 := false;
      signing2 := false;
    }
  }

  /** With one company of each kind on the two sides, "fully signed" is "both flags set". */
  lemma SignedWithBothKinds(d: Document)
    requires d.company1 != null && d.company2 != null && d.company1.role != d.company2.role
    ensures d.IsSigned() <==> d.signing1 && d.signing2
  {
  }

  /** When both sides are companies of the same kind, one flag makes the document fully signed and
      the other flag plays no part. */
  lemma SignedWithOneKind(d: Document)
    requires d.company1 != null && d.company2 != null && d.company1.role == d.company2.role
    ensures d.IsSigned() <==> d.Sigs().Has(d.company1.role)
  {
  }
}
