/** What the update handlers write to the store. Two handlers stamp the
    moment a record reaches a given status; the others write the body they
    received unchanged. The body is a JSON object and the stamped copy is
    built with object spread, so an existing stamp keeps its place and a new
    one comes last. The current time is a parameter. */
module Updates {
  import opened Wrappers
  import opened Json

  /** A request body: the own properties of a JSON object, in order. */
  type Payload = seq<Field>

  /** `{ ...updates, ...(updates.status === status && { field: now }) }`,
      or the body as received. */
  datatype UpdateRule = PassThrough | StampOn(status: string, field: string)

  /** Testimonials record when they were approved. */
  const TestimonialRule := StampOn("approved", "approved_at")
  /** Contact messages record when they were replied to. */
  const ContactRule := StampOn("replied", "replied_at")
  /** Quotes are written exactly as received. */
  const QuoteRule := PassThrough

  /** The body asks for the rule's status: `updates.status === status`,
      a strict comparison with a string. */
  predicate Triggers(rule: UpdateRule, updates: Payload) {
    rule.StampOn? && Lookup(updates, "status") == Some(JStr(rule.status))
  }

  /** The object the handler writes. */
  function Finalize(rule: UpdateRule, updates: Payload, now: string): (written: Payload)
    ensures Triggers(rule, updates) ==> Lookup(written, rule.field) == Some(JStr(now))
    ensures forall k :: k in KeyList(updates) && !(Triggers(rule, updates) && k == rule.field) ==>
              Lookup(written, k) == Lookup(updates, k)
    ensures !Triggers(rule, updates) ==> written == updates
  {
    if Triggers(rule, updates) then Put(updates, rule.field, JStr(now)) else updates
  }

  /** The stamp is added, or overwrites one the body already had in place,
      and nothing else is added or reordered. */
  lemma FinalizeKeys(rule: UpdateRule, updates: Payload, now: string)
    ensures KeyList(Finalize(rule, updates, now)) ==
              if Triggers(rule, updates) && rule.field !in KeyList(updates)
              then KeyList(updates) + [rule.field]
              else KeyList(updates)
  {
    if Triggers(rule, updates) {
      PutKeyList(updates, rule.field, JStr(now));
    }
  }

  /** The written object is a well-formed JavaScript object whenever the
      body is. */
  lemma FinalizeUnique(rule: UpdateRule, updates: Payload, now: string)
    requires UniqueKeys(updates)
    ensures UniqueKeys(Finalize(rule, updates, now))
  {
    if Triggers(rule, updates) {
      PutUnique(updates, rule.field, JStr(now));
    }
  }

  /** Sending the written object again at the same moment writes the same
      object: the stamp does not touch `status`. */
  lemma FinalizeIdempotent(rule: UpdateRule, updates: Payload, now: string)
    requires rule.StampOn? ==> rule.field != "status"
    ensures Finalize(rule, Finalize(rule, updates, now), now) == Finalize(rule, updates, now)
  {
    if Triggers(rule, updates) {
      var once := Put(updates, rule.field, JStr(now));
      assert Lookup(once, "status") == Lookup(updates, "status");
      PutTwice(updates, rule.field, JStr(now));
    }
  }

  /** A testimonial body gets `approved_at` exactly when it sets the status
      to "approved"; otherwise it is written unchanged. */
  lemma TestimonialStamp(updates: Payload, now: string)
    ensures Lookup(updates, "status") == Some(JStr("approved")) ==>
              Lookup(Finalize(TestimonialRule, updates, now), "approved_at") == Some(JStr(now))
    ensures Lookup(updates, "status") != Some(JStr("approved")) ==>
              Finalize(TestimonialRule, updates, now) == updates
  {
  }

  /** A contact-message body gets `replied_at` exactly when it sets the
      status to "replied", and keeps every field it had. */
  lemma ContactStamp(updates: Payload, now: string)
    ensures Lookup(updates, "status") == Some(JStr("replied")) ==>
              && Lookup(Finalize(ContactRule, updates, now), "replied_at") == Some(JStr(now))
              && Lookup(Finalize(ContactRule, updates, now), "status") == Some(JStr("replied"))
    ensures Lookup(updates, "status") != Some(JStr("replied")) ==>
              Finalize(ContactRule, updates, now) == updates
  {
  }

  /** A quote body is written exactly as received, whatever its status. */
  lemma QuotePassThrough(updates: Payload, now: string)
    ensures Finalize(QuoteRule, updates, now) == updates
  {
  }
}
