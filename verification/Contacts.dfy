/** Contacts by phone number: the normal form, and the store that keeps it unique per account. */
module Contacts {
  import opened Common

  predicate IsPhoneChar(c: char) {
    '0' <= c <= '9' || c == '+'
  }

  /** The characters that are digits or plus signs. */
  function Clean(s: string): string {
    if s == [] then []
    else (if IsPhoneChar(s[0]) then [s[0]] else []) + Clean(s[1..])
  }

  /** `formatPhoneNumber`. */
  function Format(s: string): string {
    var f := Clean(s);
    if (f == [] || f[0] != '+') && |f| > 10 then ['+'] + f else f
  }

  /** What a formatted number looks like. */
  predicate Normal(s: string) {
    && (forall i :: 0 <= i < |s| ==> IsPhoneChar(s[i]))
    && (|s| <= 10 || s[0] == '+')
  }

  lemma {:induction false} CleanMeaning(s: string)
    ensures forall i :: 0 <= i < |Clean(s)| ==> IsPhoneChar(Clean(s)[i])
    ensures (forall i :: 0 <= i < |s| ==> IsPhoneChar(s[i])) ==> Clean(s) == s
    decreases |s|
  {
    if s != [] { CleanMeaning(s[1..]); }
  }

  /** Formatting yields a normal number, and leaves exactly the normal ones alone. */
  lemma FormatNormalises(s: string)
    ensures Normal(Format(s))
    ensures Format(s) == s <==> Normal(s)
    ensures Format(Format(s)) == Format(s)
  {
    CleanMeaning(s);
    CleanMeaning(Format(s));
  }

  lemma {:induction false} CleanConcat(a: string, b: string)
    ensures Clean(a + b) == Clean(a) + Clean(b)
    decreases |a|
  {
    if a == [] {
      assert a + b == b;
    } else {
      CleanConcat(a[1..], b);
      assert (a + b)[1..] == a[1..] + b;
    }
  }

  lemma CleanDrops(a: string, c: char, b: string)
    requires !IsPhoneChar(c)
    ensures Clean(a + [c] + b) == Clean(a + b)
  {
    CleanConcat(a + [c], b);
    CleanConcat(a, [c]);
    CleanConcat(a, b);
    CleanOther(c);
    assert Clean(a) + [] == Clean(a);
  }

  lemma CleanOther(c: char)
    requires !IsPhoneChar(c)
    ensures Clean([c]) == []
  {
    assert [c][1..] == [];
  }

  /** A character that is neither a digit nor a plus sign does not matter, wherever it stands. */
  lemma SeparatorsDrop(a: string, c: char, b: string)
    requires !('0' <= c <= '9') && c != '+'
    ensures Format(a + [c] + b) == Format(a + b)
  {
    CleanDrops(a, c, b);
  }

  /** Digits and plus signs are kept; more than ten without a plus sign in front get one. */
  lemma PlainNumber(s: string)
    requires forall i :: 0 <= i < |s| ==> '0' <= s[i] <= '9' || s[i] == '+'
    ensures Format(s) == if |s| > 10 && s[0] != '+' then "+" + s else s
  {
    CleanMeaning(s);
  }

  // ---------------------------------------------------------------------------------------------
  // The store
  // ---------------------------------------------------------------------------------------------

  datatype Contact = Contact(phone: string, account: string)

  type Table = map<nat, Contact>

  ghost predicate Stored(t: Table, c: Contact) {
    exists id :: id in t && t[id] == c
  }

  /** The unique index on phone number and account. */
  ghost predicate Unique(t: Table) {
    forall i, j :: i in t && j in t && t[i] == t[j] ==> i == j
  }

  ghost predicate AllNormal(t: Table) {
    forall i :: i in t ==> Normal(t[i].phone)
  }

  datatype Import = Imported | Duplicate | Failed

  datatype UpdateResult = NotFound | Conflict | DuplicateKey | Updated

  class Service {
    var contacts: Table
    var nextId: nat

    constructor ()
      ensures Valid() && contacts == map[]
    {
      contacts, nextId := map[], 0;
    }

    /** Stored numbers are in normal form and unique per account. */
    ghost predicate Valid()
      reads this
    {
      Unique(contacts) && AllNormal(contacts) && forall i :: i in contacts ==> i < nextId
    }

    method FindOne(c: Contact) returns (id: Option<nat>)
      ensures id.Some? ==> id.value in contacts && contacts[id.value] == c
      ensures id.None? ==> !Stored(contacts, c)
    {
      if i :| i in contacts && contacts[i] == c {
        return Some(i);
      }
      return None;
    }

    /** The insert of the database: it throws when the number is missing, or the unique index would be violated. */
    method Insert(c: Contact) returns (id: Option<nat>)
      requires Valid() && Normal(c.phone)
      modifies this
      ensures Valid()
      ensures id.None? <==> c.phone == "" || Stored(old(contacts), c)
      ensures id.None? ==> contacts == old(contacts)
      ensures id.Some? ==> id.value !in old(contacts) && contacts == old(contacts)[id.value := c]
    {
      if c.phone == "" {
        return None;
      }
      var existing := FindOne(c);
      if existing.Some? {
        return None;
      }
      contacts := contacts[nextId := c];
      id := Some(nextId);
      nextId := nextId + 1;
    }

    method FindByPhoneNumber(phone: string, account: string) returns (id: Option<nat>)
      ensures id.Some? ==> id.value in contacts && contacts[id.value] == Contact(Format(phone), account)
      ensures id.None? ==> !Stored(contacts, Contact(Format(phone), account))
    {
      id := FindOne(Contact(Format(phone), account));
    }

    /** `create`; the first lookup uses the number as given. phoneWorks says whether registering the number works. */
    method Create(phone: string, account: string, phoneWorks: bool) returns (id: Option<nat>)
      requires Valid()
      modifies this
      ensures Valid()
      ensures Stored(old(contacts), Contact(Format(phone), account)) || Format(phone) == "" ==>
        contacts == old(contacts)
      ensures !Stored(old(contacts), Contact(Format(phone), account)) && Format(phone) != "" ==>
        exists i: nat :: i !in old(contacts) && contacts == old(contacts)[i := Contact(Format(phone), account)]
      ensures id.None? <==> if Stored(old(contacts), Contact(Format(phone), account)) then !Normal(phone)
                            else Format(phone) == "" || !phoneWorks
      ensures id.Some? ==> id.value in contacts && contacts[id.value] == Contact(Format(phone), account)
    {
      FormatNormalises(phone);
      id := FindOne(Contact(phone, account));
      if id.Some? {
        assert Normal(contacts[id.value].phone);
        return;
      }
      var inserted := Insert(Contact(Format(phone), account));
      id := if inserted.Some? && phoneWorks then inserted else None;
    }

    /** `updateContact`, as far as the number is concerned; an empty number is written without formatting. */
    method Update(id: nat, phone: Option<string>, account: string) returns (r: UpdateResult)
      requires Valid()
      modifies this`contacts
      ensures Valid()
      ensures r == NotFound <==> !(id in old(contacts) && old(contacts)[id].account == account)
      ensures r != Updated ==> contacts == old(contacts)
      ensures r == Updated && phone.None? ==> contacts == old(contacts)
      ensures r == Updated && phone.Some? ==> contacts == old(contacts)[id := Contact(Format(phone.value), account)]
      ensures r in {Conflict, DuplicateKey} <==>
        && id in old(contacts) && old(contacts)[id].account == account && phone.Some?
        && exists j :: j in old(contacts) && j != id && old(contacts)[j] == Contact(Format(phone.value), account)
      ensures r == DuplicateKey ==> phone == Some("")
    {
      if id !in contacts || contacts[id].account != account {
        return NotFound;
      }
      if phone.None? {
        return Updated;
      }
      FormatNormalises(phone.value);
      var c := Contact(Format(phone.value), account);
      if j :| j in contacts && j != id && contacts[j] == c {
        return if phone.value != "" then Conflict else DuplicateKey;
      }
      contacts := contacts[id := c];
      return Updated;
    }

    /** One entry of `bulkImport`, inside its try block. */
    method ImportOne(number: Option<string>, account: string, dbWorks: bool) returns (r: Import)
      requires Valid()
      modifies this
      ensures Valid()
      ensures r == Failed <==> Fails(old(contacts), number, account, dbWorks)
      ensures r == Failed ==> contacts == old(contacts)
      ensures |contacts| == |old(contacts)| + (if r == Imported then 1 else 0)
      ensures r != Failed ==>
        var c := Contact(Format(number.value), account);
        && Stored(contacts, c)
        && (if Stored(old(contacts), c) then r == Duplicate && contacts == old(contacts)
            else r == Imported && exists i: nat :: i !in old(contacts) && contacts == old(contacts)[i := c])
    {
      if number.None? || !dbWorks {
        return Failed;
      }
      FormatNormalises(number.value);
      var c := Contact(Format(number.value), account);
      var existing := FindOne(c);
      if existing.Some? {
        return Duplicate;
      }
      var id := Insert(c);
      if id.None? {
        return Failed;
      }
      assert contacts[id.value] == c;
      return Imported;
    }

    /** `bulkImport`; a missing number or a failing database call is recorded under its index. */
    method BulkImport(numbers: seq<Option<string>>, account: string, dbWorks: nat -> bool)
      returns (imported: nat, duplicates: nat, errors: seq<nat>)
      requires Valid()
      modifies this
      ensures Valid()
      ensures imported + duplicates + |errors| == |numbers|
      ensures |contacts| == |old(contacts)| + imported
      ensures forall i :: i in old(contacts) ==> i in contacts && contacts[i] == old(contacts)[i]
      ensures forall k :: k in errors <==> 0 <= k < |numbers| && Fails(old(contacts), numbers[k], account, dbWorks(k))
      ensures forall k :: 0 <= k < |numbers| && k !in errors ==>
        numbers[k].Some? && Stored(contacts, Contact(Format(numbers[k].value), account))
      ensures forall i :: i in contacts && i !in old(contacts) ==> FromInput(contacts[i], numbers, account)
    {
      imported, duplicates, errors := 0, 0, [];
      for i := 0 to |numbers|
        invariant Valid()
        invariant imported + duplicates + |errors| == i
        invariant |contacts| == |old(contacts)| + imported
        invariant Stored(contacts, Contact("", account)) <==> Stored(old(contacts), Contact("", account))
        invariant forall k :: k in errors <==> 0 <= k < i && Fails(old(contacts), numbers[k], account, dbWorks(k))
        invariant ImportedTo(old(contacts), contacts, numbers, account, errors, i)
      {
        ghost var before := contacts;
        var r := ImportOne(numbers[i], account, dbWorks(i));
        if r == Failed {
          ImportSkips(old(contacts), contacts, numbers, account, errors, i);
          errors := errors + [i];
        } else {
          ImportsNext(old(contacts), before, contacts, numbers, account, errors, i);
          if r == Duplicate {
            duplicates := duplicates + 1;
          } else {
            imported := imported + 1;
          }
        }
      }
    }
  }

  /** Creating the same number twice: the second time it throws exactly if the number was not typed in normal form. */
  method CreateTwice(phone: string, account: string) returns (first: Option<nat>, second: Option<nat>)
    ensures first.Some? <==> Format(phone) != ""
    ensures first.Some? ==> (second.Some? <==> Normal(phone))
  {
    var service := new Service();
    first := service.Create(phone, account, true);
    second := service.Create(phone, account, true);
  }

  /** Eleven digits are stored with a plus sign, and are then not found as they were typed. */
  method CreateElevenDigitsTwice() returns (first: Option<nat>, second: Option<nat>)
    ensures first.Some? && second.None?
  {
    var phone := "12345678901";
    assert !Normal(phone);
    CleanMeaning(phone);
    first, second := CreateTwice(phone, "a");
  }

  /**
   An entry fails if it has no number, a database call fails, or nothing is left of its number and no contact
   is stored so.
   */
  ghost predicate Fails(t: Table, number: Option<string>, account: string, dbWorks: bool) {
    number.None? || !dbWorks || (Format(number.value) == "" && !Stored(t, Contact("", account)))
  }

  /** Nothing stored before was lost, the first n numbers are stored but for the errors, and nothing else was added. */
  ghost predicate ImportedTo(t0: Table, t: Table, numbers: seq<Option<string>>, account: string, errors: seq<nat>,
                             n: nat)
    requires n <= |numbers|
  {
    && (forall j :: j in t0 ==> j in t && t[j] == t0[j])
    && (forall k :: 0 <= k < n && k !in errors ==>
          numbers[k].Some? && Stored(t, Contact(Format(numbers[k].value), account)))
    && (forall j :: j in t && j !in t0 ==> FromInput(t[j], numbers, account))
  }

  lemma ImportSkips(t0: Table, t: Table, numbers: seq<Option<string>>, account: string, errors: seq<nat>, n: nat)
    requires n < |numbers| && ImportedTo(t0, t, numbers, account, errors, n)
    ensures ImportedTo(t0, t, numbers, account, errors + [n], n + 1)
    ensures forall k :: k in errors + [n] <==> k in errors || k == n
  {
  }

  lemma ImportsNext(t0: Table, t: Table, u: Table, numbers: seq<Option<string>>, account: string, errors: seq<nat>,
                    n: nat)
    requires n < |numbers| && numbers[n].Some? && ImportedTo(t0, t, numbers, account, errors, n)
    requires var c := Contact(Format(numbers[n].value), account);
      Stored(u, c) && (u == t || exists i: nat :: i !in t && u == t[i := c])
    ensures ImportedTo(t0, u, numbers, account, errors, n + 1)
  {
    var c := Contact(Format(numbers[n].value), account);
    assert FromInput(c, numbers, account);
    StillStored(t, u);
    forall k | 0 <= k < n + 1 && k !in errors
      ensures numbers[k].Some? && Stored(u, Contact(Format(numbers[k].value), account))
    {
      assert k == n || Stored(t, Contact(Format(numbers[k].value), account));
    }
    forall j | j in u && j !in t0 ensures FromInput(u[j], numbers, account) {
      assert j in t || u[j] == c;
    }
  }

  lemma StillStored(t: Table, u: Table)
    requires forall i :: i in t ==> i in u && u[i] == t[i]
    ensures forall c :: Stored(t, c) ==> Stored(u, c)
  {
    forall c | Stored(t, c) ensures Stored(u, c) {
      var i :| i in t && t[i] == c;
      assert i in u && u[i] == c;
    }
  }

  ghost predicate FromInput(c: Contact, numbers: seq<Option<string>>, account: string) {
    exists k :: 0 <= k < |numbers| && numbers[k].Some? && c == Contact(Format(numbers[k].value), account)
  }
}
