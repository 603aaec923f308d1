/** The site's database and mail outbox, held in memory: every table is a
    map from row id to row, and every email sent is appended to the
    outbox. Server actions and route handlers receive the one `Database`
    and change only the tables they write. */
module Store {
  import opened Types

  /** All tables at one moment; used to say "nothing else changes". */
  datatype Tables = Tables(
    classes: map<Id, ClassRow>,
    registrations: map<Id, Registration>,
    students: map<Id, Student>,
    profiles: map<Id, Profile>,
    events: map<Id, EventRow>,
    gallery: map<Id, GalleryItem>,
    messages: map<Id, ContactSubmission>,
    blogPosts: map<Id, BlogPost>,
    sponsorships: map<Id, Sponsorship>,
    adminUsers: map<Id, AdminUser>,
    outbox: seq<Email>)

  class Database {
    var classes: map<Id, ClassRow>
    var registrations: map<Id, Registration>
    var students: map<Id, Student>
    var profiles: map<Id, Profile>
    var events: map<Id, EventRow>
    var gallery: map<Id, GalleryItem>
    var messages: map<Id, ContactSubmission>
    var blogPosts: map<Id, BlogPost>
    var sponsorships: map<Id, Sponsorship>
    var adminUsers: map<Id, AdminUser>
    var outbox: seq<Email>

    function Snapshot(): Tables
      reads this
    {
      Tables(classes, registrations, students, profiles, events, gallery,
             messages, blogPosts, sponsorships, adminUsers, outbox)
    }

    constructor (t: Tables)
      ensures Snapshot() == t
    {
      classes, registrations, students, profiles := t.classes, t.registrations, t.students, t.profiles;
      events, gallery, messages, blogPosts := t.events, t.gallery, t.messages, t.blogPosts;
      sponsorships, adminUsers, outbox := t.sponsorships, t.adminUsers, t.outbox;
    }
  }

  /** A length no key reaches. */
  ghost function MaxLen(keys: set<Id>): (n: nat)
    ensures forall k :: k in keys ==> |k| <= n
    decreases keys
  {
    if keys == {} then 0
    else
      var k :| k in keys;
      var rest := MaxLen(keys - {k});
      if |k| > rest then |k| else rest
  }

  /** A table always has room for a new id: the database's uuid generator
      is modelled by choosing any id the table does not hold. */
  lemma {:induction false} FreshIdExists<V>(m: map<Id, V>)
    ensures exists id: Id :: id !in m
  {
    var id := seq(MaxLen(m.Keys) + 1, _ => 'x');
    assert id !in m;
  }

  /** `sendEmail` (lib/email.tsx:230-247) only logs and reports success:
      it is an append to the outbox that cannot fail. */
  method SendEmail(db: Database, to: string, subject: string)
    modifies db
    ensures db.Snapshot() == old(db.Snapshot()).(outbox := old(db.outbox) + [Email(to, subject)])
  {
    db.outbox := db.outbox + [Email(to, subject)];
  }
}
