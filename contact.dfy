/** The contact routes: the public contact form and the admin inbox
    (listing, status change, deletion) over the contacts table. */
module ContactRoutes {
  import opened Common
  import opened Seqs
  import opened Sorting
  import Email

  /** A row of the contacts table. */
  datatype ContactRow = ContactRow(id: nat, name: string, email: string, message: string, status: string, createdAt: int)

  /** The fields of the contact form; phone and subject are accepted but not stored. */
  datatype ContactForm = ContactForm(name: Option<string>, email: Option<string>, phone: Option<string>,
                                     message: Option<string>, subject: Option<string>)

  predicate FormComplete(f: ContactForm) {
    Truthy(f.name) && Truthy(f.email) && Truthy(f.message)
  }

  /** The row a complete form is stored as: status `nouveau`. */
  function NewContact(id: nat, f: ContactForm, now: int): (c: ContactRow)
    requires FormComplete(f)
    ensures c.status == "nouveau" && c.id == id && c.createdAt == now
    ensures c.name == f.name.value && c.email == f.email.value && c.message == f.message.value
  {
    ContactRow(id, f.name.value, f.email.value, f.message.value, "nouveau", now)
  }

  /** Two forms differing only in phone and subject are stored alike. */
  lemma PhoneAndSubjectNotStored(id: nat, f: ContactForm, phone: Option<string>, subject: Option<string>, now: int)
    requires FormComplete(f)
    ensures NewContact(id, f.(phone := phone, subject := subject), now) == NewContact(id, f, now)
  {
  }

  /** `UPDATE contacts SET status = ? WHERE id = ?`. */
  function WithStatus(contacts: seq<ContactRow>, id: int, status: string): (r: seq<ContactRow>)
    ensures |r| == |contacts|
    ensures forall i :: 0 <= i < |r| ==>
              r[i] == if contacts[i].id == id then contacts[i].(status := status) else contacts[i]
  {
    seq(|contacts|, i requires 0 <= i < |contacts| =>
      if contacts[i].id == id then contacts[i].(status := status) else contacts[i])
  }

  /** Setting the same status twice is setting it once. */
  lemma WithStatusIdempotent(contacts: seq<ContactRow>, id: int, status: string)
    ensures WithStatus(WithStatus(contacts, id, status), id, status) == WithStatus(contacts, id, status)
  {
  }

  function NotContact(id: int): ContactRow -> bool {
    (c: ContactRow) => c.id != id
  }

  function NewestFirst(c: ContactRow): int {
    -c.createdAt
  }

  /** The contacts table with its id counter. */
  class ContactInbox {
    var contacts: seq<ContactRow>
    var nextId: nat

    /** Ids are increasing and below the counter, hence distinct. */
    predicate Valid()
      reads this
    {
      (forall i :: 0 <= i < |contacts| ==> contacts[i].id < nextId)
      && (forall i, j :: 0 <= i < j < |contacts| ==> contacts[i].id < contacts[j].id)
    }

    constructor()
      ensures Valid() && contacts == [] && nextId == 1
    {
      contacts := [];
      nextId := 1;
    }

    /** `POST /api/contact`: 400 unless name, email and message are given;
        otherwise the row is stored with status `nouveau` and the answer
        carries its id, whatever becomes of the notification mail. */
    method Submit(f: ContactForm, now: int, config: Email.EmailConfig)
      returns (r: Result<nat>, mail: Option<Email.Message>)
      requires Valid()
      modifies this
      ensures Valid()
      ensures !FormComplete(f) ==> r == Err(BadRequest) && mail.None?
                                   && contacts == old(contacts) && nextId == old(nextId)
      ensures FormComplete(f) ==>
                r == Ok(old(nextId))
                && contacts == old(contacts) + [NewContact(old(nextId), f, now)]
                && nextId == old(nextId) + 1
                && mail == Email.ContactNotification(config, f.name.value)
    {
      if !FormComplete(f) {
        return Err(BadRequest), None;
      }
      var id := nextId;
      contacts := contacts + [NewContact(id, f, now)];
      nextId := id + 1;
      mail := Email.ContactNotification(config, f.name.value);
      r := Ok(id);
    }

    /** `GET /admin`: every contact, newest first. */
    method List(session: Session) returns (r: Result<seq<ContactRow>>)
      ensures !IsAdmin(session) ==> r == Err(Unauthorized)
      ensures IsAdmin(session) ==> r.Ok? && multiset(r.value) == multiset(contacts)
      ensures IsAdmin(session) ==> forall i, j :: 0 <= i < j < |r.value| ==> r.value[i].createdAt >= r.value[j].createdAt
    {
      if !IsAdmin(session) {
        return Err(Unauthorized);
      }
      var sorted := SortBy(contacts, NewestFirst);
      assert forall i, j :: 0 <= i < j < |sorted| ==> NewestFirst(sorted[i]) <= NewestFirst(sorted[j]);
      r := Ok(sorted);
    }

    /** `PUT /admin/:id`: 400 without a status; any given status is stored. */
    method SetStatus(session: Session, id: int, status: Option<string>) returns (r: Result<()>)
      requires Valid()
      modifies this`contacts
      ensures Valid()
      ensures !IsAdmin(session) ==> r == Err(Unauthorized) && contacts == old(contacts)
      ensures IsAdmin(session) && !Truthy(status) ==> r == Err(BadRequest) && contacts == old(contacts)
      ensures IsAdmin(session) && Truthy(status) ==> r == Ok(()) && contacts == WithStatus(old(contacts), id, status.value)
    {
      if !IsAdmin(session) {
        return Err(Unauthorized);
      }
      if !Truthy(status) {
        return Err(BadRequest);
      }
      contacts := WithStatus(contacts, id, status.value);
      r := Ok(());
    }

    /** `DELETE /admin/:id`. */
    method Delete(session: Session, id: int) returns (r: Result<()>)
      requires Valid()
      modifies this`contacts
      ensures Valid()
      ensures !IsAdmin(session) ==> r == Err(Unauthorized) && contacts == old(contacts)
      ensures IsAdmin(session) ==> r == Ok(()) && contacts == Filter(old(contacts), NotContact(id))
    {
      if !IsAdmin(session) {
        return Err(Unauthorized);
      }
      var kept := Filter(contacts, NotContact(id));
      FilterIsSubsequence(contacts, NotContact(id));
      SubsequenceKeepsIncreasingIds(kept, contacts);
      contacts := kept;
      r := Ok(());
    }
  }

  /** A subsequence of rows with increasing ids has increasing ids. */
  lemma {:induction false} SubsequenceKeepsIncreasingIds(a: seq<ContactRow>, b: seq<ContactRow>)
    requires IsSubsequence(a, b)
    requires forall i, j :: 0 <= i < j < |b| ==> b[i].id < b[j].id
    ensures forall i, j :: 0 <= i < j < |a| ==> a[i].id < a[j].id
    ensures forall i :: 0 <= i < |a| ==> a[i] in b
    decreases |b|
  {
    if a != [] && b != [] {
      if a[0] == b[0] {
        SubsequenceKeepsIncreasingIds(a[1..], b[1..]);
        forall j | 0 < j < |a| ensures a[0].id < a[j].id {
          assert a[j] == a[1..][j - 1];
          assert a[j] in b[1..];
        }
        assert forall i :: 1 <= i < |a| ==> a[i] == a[1..][i - 1];
      } else {
        SubsequenceKeepsIncreasingIds(a, b[1..]);
      }
    }
  }

  /** Deleting removes exactly the rows with that id and keeps the others in order. */
  lemma DeleteRemovesOnly(contacts: seq<ContactRow>, id: int)
    ensures IsSubsequence(Filter(contacts, NotContact(id)), contacts)
    ensures forall i :: 0 <= i < |contacts| ==> (contacts[i] in Filter(contacts, NotContact(id)) <==> contacts[i].id != id)
  {
    FilterIsSubsequence(contacts, NotContact(id));
  }
}
