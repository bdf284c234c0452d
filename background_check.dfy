/**
 * `BackgroundChecker`: a mock background check over a dictionary of
 * records keyed by name, seeded with three entries and extended in place by
 * `add_record`.  For a name it does not hold, `check` picks a status at
 * random; the model leaves that choice open.
 */
module BackgroundCheck {

  datatype CheckRecord = CheckRecord(status: string, details: string)

  /** The table `__init__` starts from. */
  function Seed(): (m: map<string, CheckRecord>)
    ensures m.Keys == {"John", "Alice", "Bob"}
  {
    map["John" := CheckRecord("flagged", "Court record found in Bangalore"),
        "Alice" := CheckRecord("clear", "No records found"),
        "Bob" := CheckRecord("flagged", "Employment verification pending")]
  }

  /** The two results `check` can make up for a name it does not know. */
  predicate Invented(r: CheckRecord, location: string) {
    r == CheckRecord("clear", "No records found in " + location)
    || r == CheckRecord("flagged", "Verification required for " + location)
  }

  class BackgroundChecker {
    var records: map<string, CheckRecord>

    /** `__init__` */
    constructor ()
      ensures records == Seed()
    {
      records := Seed();
    }

    /**
     * `check`: the stored record for a known name, whatever the location;
     * otherwise a clear or flagged result naming the location.  The table is
     * only read.
     */
    method Check(name: string, location: string) returns (r: CheckRecord)
      ensures name in records ==> r == records[name]
      ensures name !in records ==> Invented(r, location)
    {
      if name in records {
        return records[name];
      }
      var status :| status in ["clear", "flagged"];
      if status == "clear" {
        r := CheckRecord("clear", "No records found in " + location);
      } else {
        r := CheckRecord("flagged", "Verification required for " + location);
      }
    }

    /** `add_record`: the entry for `name` is set, replacing any earlier one; no other entry changes. */
    method AddRecord(name: string, status: string, details: string)
      modifies this
      ensures records == old(records)[name := CheckRecord(status, details)]
      ensures forall n :: n in old(records) && n != name ==> n in records && records[n] == old(records)[n]
    {
      records := records[name := CheckRecord(status, details)];
    }
  }

  /** A record added to a checker is what `check` then returns for that name. */
  method AddThenCheck(c: BackgroundChecker, name: string, status: string, details: string, location: string)
    returns (r: CheckRecord)
    modifies c
    ensures r == CheckRecord(status, details)
  {
    c.AddRecord(name, status, details);
    r := c.Check(name, location);
  }

  /** A fresh checker knows John, Alice and Bob, with John and Bob flagged and Alice clear. */
  lemma SeedStatuses()
    ensures Seed()["John"].status == "flagged" && Seed()["Bob"].status == "flagged"
    ensures Seed()["Alice"].status == "clear"
  {
  }
}
