/** The object stores as the code sees them: every call may also raise, and then counts as a fault. */
module Stores {
  import opened Domain
  import opened SourceKeys
  import opened Streams

  class SourceStore {
    const bucket: string
    var objects: map<string, Bytes>
    ghost var faults: nat
    ghost var failedPuts: nat  // those of the faults that were a `put`

    constructor (bucket: string)
      ensures this.bucket == bucket && objects == map[]
    {
      this.bucket, objects, faults, failedPuts := bucket, map[], 0, 0;
    }

    /** `put`; None is an exception, after which the object may or may not be there. */
    method Put(key: string, content: Bytes) returns (uri: Option<string>)
      modifies this
      ensures uri.Some? ==> uri.value == "s3://" + bucket + "/" + key && objects == old(objects)[key := content]
      ensures uri.None? ==> objects == old(objects) || objects == old(objects)[key := content]
      ensures faults == old(faults) + if uri.Some? then 0 else 1
      ensures failedPuts == old(failedPuts) + if uri.Some? then 0 else 1
    {
      uri := None;
      if * {
        objects := objects[key := content];
        if * {
          return Some("s3://" + bucket + "/" + key);
        }
      }
      faults, failedPuts := faults + 1, failedPuts + 1;
    }

    /** `delete`; false is an exception. */
    method Delete(key: string) returns (ok: bool)
      modifies this`objects, this`faults
      ensures objects == if ok then old(objects) - {key} else old(objects)
      ensures faults == old(faults) + if ok then 0 else 1
    {
      ok :| true;
      if ok {
        objects := objects - {key};
      } else {
        faults := faults + 1;
      }
    }

    /** `get`; None is an exception, which a URI of another bucket or without a key always causes. */
    method Get(uri: string) returns (body: Option<ByteStream>)
      modifies this`faults
      ensures faults >= old(faults) && (body.Some? ==> faults == old(faults))
      ensures body.Some? ==>
                && fresh(body.value) && body.value.Valid() && body.value.pos == 0 && body.value.lengths == []
                && body.value.faults == 0
                && var key := KeyOfUri(bucket, uri);
                   key.Some? && key.value in objects && body.value.content == objects[key.value]
      ensures body.None? && faults == old(faults) ==>
                var key := KeyOfUri(bucket, uri); key.None? || key.value !in objects
    {
      body := None;
      var url := UrlParse(uri);
      var key := StripSlashes(url.path);
      if url.scheme != "s3" || url.netloc != bucket || key == "" || key !in objects {
        return;
      }
      if * {
        var stream := new ByteStream(objects[key]);
        return Some(stream);
      }
      faults := faults + 1;
    }
  }

  class ArtifactStore {
    const bucket: string
    var objects: map<string, Artifact>
    ghost var faults: nat

    constructor (bucket: string)
      ensures this.bucket == bucket && objects == map[]
    {
      this.bucket, objects, faults := bucket, map[], 0;
    }

    /** `put_json`; None is an exception, after which the object may or may not be there. */
    method PutJson(key: string, value: Artifact) returns (uri: Option<string>)
      modifies this
      ensures uri.Some? ==> uri.value == "s3://" + bucket + "/" + key && objects == old(objects)[key := value]
      ensures uri.None? ==> objects == old(objects) || objects == old(objects)[key := value]
      ensures faults == old(faults) + if uri.Some? then 0 else 1
    {
      uri := None;
      if * {
        objects := objects[key := value];
        if * {
          return Some("s3://" + bucket + "/" + key);
        }
      }
      faults := faults + 1;
    }
  }
}
