/** File upload to the backend's storage (src/lib/supabase.ts). */
module Supabase {
  import opened Outcomes
  import opened Text
  import opened Backend

  /** A file picked in the browser; only its name matters to the client. */
  datatype File = File(name: string)

  /** `name.split(".").pop()`: the last piece of the name between dots. */
  function Extension(name: string): (e: string)
    ensures '.' !in e
  {
    var parts := Split(name, '.');
    parts[|parts| - 1]
  }

  /** The extension is what follows the last dot of the name, or the whole
      name when it has no dot; it never holds a dot itself. */
  lemma ExtensionAfterLastDot(name: string)
    ensures '.' !in Extension(name)
    ensures '.' !in name ==> Extension(name) == name
    ensures '.' in name ==>
      var n, e := |name|, |Extension(name)|;
      e < n && name[n - e - 1] == '.' && name[n - e..] == Extension(name)
  {
    var parts := Split(name, '.');
    var ext := parts[|parts| - 1];
    SplitThenJoin(name, '.');
    if |parts| == 1 {
      assert name == ext;
    } else {
      JoinLast(parts, '.');
      var stem := Join(parts[..|parts| - 1], '.');
      assert name == stem + ['.'] + ext;
      assert name[|stem|] == '.';
      assert name[|name| - |ext|..] == ext;
    }
  }

  /** The name the file is stored under: a generated prefix, a dot and the extension. */
  function StorageName(prefix: string, fileName: string): (n: string)
    ensures |n| > |prefix| && n[..|prefix|] == prefix && n[|prefix|] == '.'
    ensures '.' !in n[|prefix| + 1..] && n[|prefix| + 1..] == Extension(fileName)
  {
    prefix + "." + Extension(fileName)
  }

  /** The stored name ends with a dot and the file's extension, and its own
      extension is the file's: the upload keeps the file type. */
  lemma StorageNameKeepsExtension(prefix: string, fileName: string)
    ensures var name, ext := StorageName(prefix, fileName), Extension(fileName);
      |name| > |ext| && name[|name| - |ext| - 1..] == "." + ext
    ensures Extension(StorageName(prefix, fileName)) == Extension(fileName)
  {
    var ext := Extension(fileName);
    var name := prefix + ['.'] + ext;
    assert StorageName(prefix, fileName) == name;
    assert name[|prefix|..] == "." + ext;
    ExtensionAfterLastDot(fileName);
    var parts := Split(prefix, '.') + Split(ext, '.');
    SplitAround(prefix, '.', ext);
    SplitNoSeparator(ext, '.');
    assert Split(name, '.') == parts && parts[|parts| - 1] == ext;
  }

  /** `uploadFile(file, bucket)`: store the file under a generated name and give
      back its public URL; a failed upload throws and gives no URL. The generated
      prefix and the public-URL computation of the client library are parameters. */
  method UploadFile(client: Client, file: File, bucket: string, prefix: string,
                    answer: Answer<()>, urlOf: (string, string) -> string)
    returns (c: Completion<string>)
    modifies client`calls
    ensures client.calls == old(client.calls) + [StorageUpload(bucket, StorageName(prefix, file.name))]
    ensures answer.Data? ==> c == Returned(urlOf(bucket, StorageName(prefix, file.name)))
    ensures !answer.Data? ==> c == Threw(Reason(answer))
  {
    var fileName := StorageName(prefix, file.name);
    client.Send(StorageUpload(bucket, fileName));
    if !answer.Data? {
      return Threw(Reason(answer));
    }
    c := Returned(urlOf(bucket, fileName));
  }
}
