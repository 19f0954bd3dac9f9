/**
A bucket as its requests see it: objects, open multipart uploads, and what each request does to
them. Every request meets a fate: it is served, it fails before it took effect, its effect stands
but the answer is lost, or the answer is lost and the client sends it once more.

A conditional write follows section 13.1.2 of RFC 9110: with `If-None-Match: *` the server stores
nothing and answers 412 (section 15.5.13 of RFC 9110) when the key already holds an object.
*/
module S3Bucket {
  import opened Wrappers
  import opened Chunks
  import opened Ordering

  /** A failed request: an answer with a status and perhaps a code, or no answer. */
  datatype SdkError = Service(status: nat, code: Option<string>) | Transport

  datatype Conditional = Present | Conflict

  /** Either the status or the code identifies the case. */
  function ConditionalOutcome(e: SdkError): Option<Conditional> {
    if e.Transport? then None
    else if e.status == 412 || e.code == Some("PreconditionFailed") then Some(Present)
    else if e.code == Some("ConditionalRequestConflict") then Some(Conflict)
    else None
  }

  /** The classification by status and code: 412 or its code first, the conflict's code next. */
  lemma ConditionalRule(e: SdkError)
    ensures ConditionalOutcome(e) == Some(Present) <==>
              e.Service? && (e.status == 412 || e.code == Some("PreconditionFailed"))
    ensures ConditionalOutcome(e) == Some(Conflict) <==>
              e.Service? && e.status != 412 && e.code == Some("ConditionalRequestConflict")
  {
  }

  /** What a server may answer to a request it did not carry out; 412 it keeps for its own case. */
  type Failure = e: SdkError | ConditionalOutcome(e) != Some(Present) witness Transport

  datatype Fate = Served | Fails(error: Failure) | Lost(error: Failure) | Resent

  const PRECONDITION_FAILED := Service(412, Some("PreconditionFailed"))
  const NO_SUCH_UPLOAD := Service(404, Some("NoSuchUpload"))
  const INVALID_PART := Service(400, Some("InvalidPart"))

  datatype Upload = Upload(key: string, parts: map<nat, Bytes>)

  datatype Request =
    | Put(key: string)
    | Create(key: string)
    | Part(id: nat, number: nat, body: Bytes)
    | Complete(id: nat)
    | Abort(id: nat)
    | List
    | Delete(keys: seq<string>)
    | ListUploads

  /** Parts `1..n` are all there. */
  predicate HasParts(parts: map<nat, Bytes>, n: nat) {
    forall i :: 1 <= i <= n ==> i in parts
  }

  /** Parts `1..n`, one after the other. */
  function Assemble(parts: map<nat, Bytes>, n: nat): Bytes
    requires HasParts(parts, n)
  {
    if n == 0 then [] else Assemble(parts, n - 1) + parts[n]
  }

  class Bucket {
    var objects: map<string, Bytes>
    var uploads: map<nat, Upload>
    var nextId: nat
    var requests: seq<Request>

    constructor ()
      ensures objects == map[] && uploads == map[] && requests == []
    {
      objects, uploads, nextId, requests := map[], map[], 0, [];
    }

    /** Uploads are numbered as they are created. */
    ghost predicate Valid()
      reads this`uploads, this`nextId
    {
      forall id :: id in uploads ==> id < nextId
    }

    method PutObject(key: string, body: Bytes, ifNoneMatch: bool, fate: Fate) returns (r: Result<(), SdkError>)
      modifies this`objects, this`requests
      ensures requests == old(requests) + [Put(key)]
      ensures objects == old(objects) || Stores(old(objects), key, body, ifNoneMatch)
      ensures r.Ok? ==> Stores(old(objects), key, body, ifNoneMatch)
      ensures r.Err? && ConditionalOutcome(r.error) == Some(Present) ==> ifNoneMatch && key in objects
      ensures fate.Served? ==> r == if ifNoneMatch && key in old(objects) then Err(PRECONDITION_FAILED) else Ok(())
      ensures fate.Fails? ==> r == Err(fate.error) && objects == old(objects)
    {
      requests := requests + [Put(key)];
      if fate.Fails? {
        return Err(fate.error);
      }
      r := Write(key, body, ifNoneMatch);
      if fate.Lost? && r.Ok? {
        r := Err(fate.error);
      } else if fate.Resent? && r.Ok? {
        if ifNoneMatch {
          r := Err(PRECONDITION_FAILED);
        }
      }
    }

    /** `objects` is `before` with the one object stored, which a conditional write found absent. */
    ghost predicate Stores(before: map<string, Bytes>, key: string, body: Bytes, ifNoneMatch: bool)
      reads this
    {
      objects == before[key := body] && (ifNoneMatch ==> key !in before)
    }

    method Write(key: string, body: Bytes, ifNoneMatch: bool) returns (r: Result<(), SdkError>)
      modifies this`objects
      ensures r == if ifNoneMatch && key in old(objects) then Err(PRECONDITION_FAILED) else Ok(())
      ensures if r.Ok? then Stores(old(objects), key, body, ifNoneMatch) else objects == old(objects)
    {
      if ifNoneMatch && key in objects {
        return Err(PRECONDITION_FAILED);
      }
      objects := objects[key := body];
      r := Ok(());
    }

    /** An answer that is lost loses the id with it; such an upload is not part of the model. */
    method CreateUpload(key: string, fate: Fate) returns (r: Result<nat, SdkError>)
      requires Valid()
      modifies this`uploads, this`nextId, this`requests
      ensures Valid()
      ensures requests == old(requests) + [Create(key)]
      ensures r.Ok? ==>
                && r.value !in old(uploads) && uploads == old(uploads)[r.value := Upload(key, map[])]
                && old(nextId) == r.value < nextId
      ensures r.Err? ==> uploads == old(uploads) && nextId == old(nextId)
      ensures fate.Served? ==> r.Ok?
      ensures fate.Fails? ==> r == Err(fate.error)
    {
      requests := requests + [Create(key)];
      if fate.Fails? || fate.Lost? {
        return Err(fate.error);
      }
      uploads := uploads[nextId := Upload(key, map[])];
      r := Ok(nextId);
      nextId := nextId + 1;
    }

    method UploadPart(id: nat, number: nat, body: Bytes, fate: Fate) returns (r: Result<(), SdkError>)
      requires Valid()
      modifies this`uploads, this`requests
      ensures Valid()
      ensures requests == old(requests) + [Part(id, number, body)]
      ensures uploads.Keys == old(uploads).Keys
      ensures forall u :: u in uploads && u != id ==> uploads[u] == old(uploads)[u]
      ensures id in uploads ==> uploads[id].key == old(uploads)[id].key
      ensures r.Ok? ==> id in uploads && uploads[id].parts == old(uploads)[id].parts[number := body]
      ensures fate.Served? && id in old(uploads) ==> r.Ok?
      ensures fate.Fails? ==> r == Err(fate.error)
    {
      requests := requests + [Part(id, number, body)];
      if fate.Fails? {
        return Err(fate.error);
      }
      if id !in uploads {
        return Err(NO_SUCH_UPLOAD);
      }
      uploads := uploads[id := uploads[id].(parts := uploads[id].parts[number := body])];
      r := if fate.Lost? then Err(fate.error) else Ok(());
    }

    method CompleteUpload(id: nat, n: nat, ifNoneMatch: bool, fate: Fate) returns (r: Result<(), SdkError>)
      requires Valid()
      modifies this`objects, this`uploads, this`requests
      ensures Valid()
      ensures requests == old(requests) + [Complete(id)]
      ensures || (objects == old(objects) && uploads == old(uploads))
              || Completes(old(objects), old(uploads), id, n, ifNoneMatch)
      ensures r.Ok? ==> Completes(old(objects), old(uploads), id, n, ifNoneMatch)
      ensures r.Err? && ConditionalOutcome(r.error) == Some(Present) ==>
                ifNoneMatch && id in old(uploads) && old(uploads)[id].key in objects
      ensures fate.Served? && id in old(uploads) && HasParts(old(uploads)[id].parts, n) ==>
                r == if ifNoneMatch && old(uploads)[id].key in old(objects) then Err(PRECONDITION_FAILED) else Ok(())
      ensures fate.Served? && r.Err? ==> ConditionalOutcome(r.error) != Some(Conflict)
      ensures fate.Fails? ==> r == Err(fate.error) && objects == old(objects) && uploads == old(uploads)
    {
      requests := requests + [Complete(id)];
      if fate.Fails? {
        return Err(fate.error);
      }
      if id !in uploads {
        return Err(NO_SUCH_UPLOAD);
      }
      if !HasParts(uploads[id].parts, n) {
        return Err(INVALID_PART);
      }
      r := Write(uploads[id].key, Assemble(uploads[id].parts, n), ifNoneMatch);
      if r.Ok? {
        uploads := uploads - {id};
        if fate.Lost? {
          r := Err(fate.error);
        } else if fate.Resent? {
          r := Err(NO_SUCH_UPLOAD);
        }
      }
    }

    /** The parts of upload `id` have become the object under its key. */
    ghost predicate Completes(before: map<string, Bytes>, open: map<nat, Upload>, id: nat, n: nat, ifNoneMatch: bool)
      reads this
    {
      && id in open && HasParts(open[id].parts, n)
      && Stores(before, open[id].key, Assemble(open[id].parts, n), ifNoneMatch)
      && uploads == open - {id}
    }

    /**
    `DeleteObjects`: each key is removed or reported, an absent one counting as removed. `denied`
    is what the bucket refuses to remove.
    */
    method DeleteObjects(keys: seq<string>, denied: set<string>, fate: Fate) returns (r: Result<seq<string>, SdkError>)
      modifies this`objects, this`requests
      ensures requests == old(requests) + [Delete(keys)]
      ensures exists gone: set<string> :: gone <= Elements(keys) && objects == old(objects) - gone
      ensures r == Ok([]) ==> objects == old(objects) - Elements(keys)
      ensures fate.Served? && Elements(keys) !! denied ==> r == Ok([])
      ensures fate.Served? ==> r.Ok? && Elements(r.value) == Elements(keys) * denied
      ensures fate.Fails? ==> r == Err(fate.error) && objects == old(objects)
    {
      requests := requests + [Delete(keys)];
      if fate.Fails? {
        assert objects == old(objects) - {};
        return Err(fate.error);
      }
      var refused := [];
      for i := 0 to |keys|
        invariant refused == [] ==> forall j :: 0 <= j < i ==> keys[j] !in denied
        invariant Elements(refused) == set k | k in keys[..i] && k in denied
      {
        assert keys[..i + 1] == keys[..i] + [keys[i]];
        if keys[i] in denied {
          assert Elements(refused + [keys[i]]) == Elements(refused) + {keys[i]};
          refused := refused + [keys[i]];
        }
      }
      assert keys[..|keys|] == keys;
      assert refused != [] ==> refused[0] in Elements(refused);
      assert Elements(refused) == Elements(keys) * denied;
      assert refused == [] ==> Elements(keys) - denied == Elements(keys);
      objects := objects - (Elements(keys) - denied);
      r := if fate.Lost? then Err(fate.error) else Ok(refused);
    }

    method AbortUpload(id: nat, fate: Fate) returns (r: Result<(), SdkError>)
      requires Valid()
      modifies this`uploads, this`requests
      ensures Valid()
      ensures requests == old(requests) + [Abort(id)]
      ensures uploads == old(uploads) - {id} || (uploads == old(uploads) && fate.Fails?)
      ensures !fate.Fails? ==> id !in uploads
      ensures fate.Served? && id in old(uploads) ==> r.Ok?
      ensures !fate.Fails? && id !in old(uploads) ==> r == Err(NO_SUCH_UPLOAD)
      ensures fate.Fails? ==> r == Err(fate.error)
    {
      requests := requests + [Abort(id)];
      if fate.Fails? {
        return Err(fate.error);
      }
      if id !in uploads {
        assert uploads == uploads - {id};
        return Err(NO_SUCH_UPLOAD);
      }
      uploads := uploads - {id};
      r := if fate.Lost? then Err(fate.error) else Ok(());
    }
  }
}
