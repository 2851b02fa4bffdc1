/** The storage upload helper (lib/helper/upload-file.tsx): the stored path
    of an upload, the removal of the image it replaces, and the public URL it
    returns. The clock value and the storage outcomes are inputs. */
module UploadFile {
  import opened Common
  import opened Text

  /** A picked file: its name, MIME type and size in bytes. */
  datatype FileRef = FileRef(name: string, fileType: string, size: nat)

  /** `file.name.split(".").pop()`. */
  function FileExt(name: string): string {
    var pieces := Split(name, '.');
    pieces[|pieces| - 1]
  }

  /** The extension holds no ".": it is the whole name when the name has no
      ".", and otherwise exactly the text after the last ".". */
  lemma {:induction false} FileExtCorrect(name: string)
    ensures Free(FileExt(name), '.')
    ensures Free(name, '.') ==> FileExt(name) == name
    ensures !Free(name, '.') ==> exists k :: 0 < k <= |name| && name[k - 1] == '.' && name[k..] == FileExt(name)
  {
    var pieces := Split(name, '.');
    SplitPiecesAreFree(name, '.');
    if Free(name, '.') {
      SplitWord(name, '.');
    } else {
      JoinSplit(name, '.');
      var n := |pieces|;
      JoinSplitsAt(pieces, n - 1, '.');
      assert pieces[n - 1..] == [FileExt(name)];
      var head := Join(pieces[..n - 1], '.');
      assert name == head + "." + FileExt(name);
      var k := |head| + 1;
      assert name[k - 1] == '.' && name[k..] == FileExt(name);
    }
  }

  /** `images/${path}/${Date.now()}.${fileExt}`. */
  function FilePath(path: string, now: nat, name: string): string {
    "images/" + path + "/" + Decimal(now) + "." + FileExt(name)
  }

  /** The stored path lies under `images/<path>/`, and its own extension is
      the picked file's extension. */
  lemma {:induction false} FilePathKeepsExt(path: string, now: nat, name: string)
    ensures StartsWith(FilePath(path, now, name), "images/" + path + "/")
    ensures FileExt(FilePath(path, now, name)) == FileExt(name)
  {
    var ext := FileExt(name);
    var head := "images/" + path + "/" + Decimal(now);
    FileExtCorrect(name);
    assert FilePath(path, now, name) == head + ['.'] + ext;
    SplitAppend(head, ext, '.');
    SplitWord(ext, '.');
    assert FilePath(path, now, name)[..|"images/" + path + "/"|] == "images/" + path + "/";
  }

  /** The URL prefix of a bucket's public objects. */
  function PublicPrefix(supabaseUrl: string, bucket: string): string {
    supabaseUrl + "/storage/v1/object/public/" + bucket + "/"
  }

  /** `getPublicUrl(filePath)`. */
  function PublicUrl(supabaseUrl: string, bucket: string, filePath: string): string {
    PublicPrefix(supabaseUrl, bucket) + filePath
  }

  /** The storage path of an old image URL: the first occurrence of the
      public prefix cut out. */
  function OldPath(oldImage: string, supabaseUrl: string, bucket: string): string {
    RemoveFirst(oldImage, PublicPrefix(supabaseUrl, bucket))
  }

  /** Stripping a public URL gives back the stored path it was made from, and
      a value without the prefix is used as a path unchanged. */
  lemma {:induction false} OldPathOfPublicUrl(supabaseUrl: string, bucket: string, filePath: string, other: string)
    ensures OldPath(PublicUrl(supabaseUrl, bucket, filePath), supabaseUrl, bucket) == filePath
    ensures !Contains(other, PublicPrefix(supabaseUrl, bucket)) ==> OldPath(other, supabaseUrl, bucket) == other
  {
    var url := PublicUrl(supabaseUrl, bucket, filePath);
    var prefix := PublicPrefix(supabaseUrl, bucket);
    assert url[..|prefix|] == prefix;
    RemoveFirstCorrect(url, prefix);
    RemoveFirstCorrect(other, prefix);
    assert url[|prefix|..] == filePath;
  }

  /** A storage call, in the order made. */
  datatype StorageCall = Remove(path: string) | Upload(path: string)

  /** One storage bucket: the stored objects by path, and the calls made on it. */
  class Storage {
    var objects: map<string, FileRef>
    var calls: seq<StorageCall>

    constructor (objects: map<string, FileRef>)
      ensures this.objects == objects && calls == []
    {
      this.objects := objects;
      calls := [];
    }

    /** `remove([path])`; a failed removal leaves the bucket as it was. */
    method Remove(path: string, ok: bool)
      modifies this
      ensures objects == if ok then old(objects) - {path} else old(objects)
      ensures calls == old(calls) + [StorageCall.Remove(path)]
    {
      if ok {
        objects := objects - {path};
      }
      calls := calls + [StorageCall.Remove(path)];
    }

    /** `upload(path, file, { upsert: true })`: a stored object at the same
        path is replaced. */
    method Upload(path: string, file: FileRef, ok: bool)
      modifies this
      ensures objects == if ok then old(objects)[path := file] else old(objects)
      ensures calls == old(calls) + [StorageCall.Upload(path)]
    {
      if ok {
        objects := objects[path := file];
      }
      calls := calls + [StorageCall.Upload(path)];
    }
  }

  /** `uploadFile`: removes the old image first when one is given (ignoring
      how the removal went), then uploads; an upload error is thrown, which
      is `None` here, and otherwise the new object's public URL is returned. */
  method UploadFile(storage: Storage, file: FileRef, path: string, oldImage: Option<string>,
                    now: nat, supabaseUrl: string, bucket: string, removeOk: bool, uploadOk: bool)
    returns (url: Option<string>)
    modifies storage
    ensures var filePath := FilePath(path, now, file.name);
            var removed := oldImage.Some? && oldImage.value != "";
            var oldPath := if removed then OldPath(oldImage.value, supabaseUrl, bucket) else "";
            && storage.calls == old(storage.calls) + (if removed then [Remove(oldPath)] else []) + [Upload(filePath)]
            && var afterRemove := if removed && removeOk then old(storage.objects) - {oldPath} else old(storage.objects);
               storage.objects == if uploadOk then afterRemove[filePath := file] else afterRemove
    ensures url == if uploadOk then Some(PublicUrl(supabaseUrl, bucket, FilePath(path, now, file.name))) else None
  {
    var filePath := FilePath(path, now, file.name);
    if oldImage.Some? && oldImage.value != "" {
      storage.Remove(OldPath(oldImage.value, supabaseUrl, bucket), removeOk);
    }
    storage.Upload(filePath, file, uploadOk);
    if !uploadOk {
      return None;
    }
    url := Some(PublicUrl(supabaseUrl, bucket, filePath));
  }
}
