/** The shop-gallery routes: the listing that first imports image files
    found in the gallery directory, upload, deletion and reordering, over
    the boutique_images table. */
module BoutiqueRoutes {
  import opened Common
  import opened Seqs
  import opened Text
  import opened Sorting
  import AdminRoutes

  /** A row of the boutique_images table. */
  datatype BoutiqueImage = BoutiqueImage(id: int, imagePath: string, displayOrder: int)

  /** The extensions the directory sync imports. */
  predicate IsImageFile(name: string) {
    Lower(Extname(name)) in [".jpg", ".jpeg", ".png", ".gif", ".webp"]
  }

  /** The five extensions, without their dot, are lower-case letters. */
  lemma ImageExtensionLetters(e: string)
    requires e in ["jpg", "jpeg", "png", "gif", "webp"]
    ensures forall j :: 0 <= j < |e| ==> 'a' <= e[j] <= 'z'
  {
  }

  /** Text whose lower-casing has no dot has no dot. */
  lemma NoDotBeforeLowering(ext: string)
    requires forall j :: 0 <= j < |Lower(ext)| ==> 'a' <= Lower(ext)[j] <= 'z'
    ensures forall j :: 0 <= j < |ext| ==> ext[j] != '.'
  {
    forall j | 0 <= j < |ext| ensures ext[j] != '.' {
      assert LowerChar(ext[j]) == Lower(ext)[j];
    }
  }

  /** Lower-casing keeps a leading dot. */
  lemma LowerAfterDot(ext: string)
    ensures Lower("." + ext) == "." + Lower(ext)
  {
    var l := Lower("." + ext);
    forall j | 0 <= j < |l| ensures l[j] == ("." + Lower(ext))[j] {
      if j > 0 {
        assert ("." + ext)[j] == ext[j - 1];
      }
    }
  }

  /** Dots in front do not hide the extension: any non-empty base followed
      by one of the five extensions, in any case, is an image file, `..png`
      and `.a.JPG` included. */
  lemma ImageFileAfterAnyBase(base: string, ext: string)
    requires base != []
    requires Lower(ext) in ["jpg", "jpeg", "png", "gif", "webp"]
    ensures IsImageFile(base + "." + ext)
  {
    var name := base + "." + ext;
    var lower := Lower(ext);
    assert Extname(name) == "." + ext by {
      ImageExtensionLetters(lower);
      NoDotBeforeLowering(ext);
      ExtnameOfTail(base, ext);
    }
    assert Lower(Extname(name)) == "." + lower by {
      LowerAfterDot(ext);
    }
    DotExtensionListed(lower);
  }

  /** With its dot, each of the five extensions is in the import's list. */
  lemma DotExtensionListed(e: string)
    requires e in ["jpg", "jpeg", "png", "gif", "webp"]
    ensures "." + e in [".jpg", ".jpeg", ".png", ".gif", ".webp"]
  {
    if e == "jpg" {
      assert "." + e == ".jpg";
    } else if e == "jpeg" {
      assert "." + e == ".jpeg";
    } else if e == "png" {
      assert "." + e == ".png";
    } else if e == "gif" {
      assert "." + e == ".gif";
    } else {
      assert "." + e == ".webp";
    }
  }

  function GalleryPath(file: string): string {
    "/images/boutique/" + file
  }

  /** The image_path column, in row order. */
  function StoredPaths(rows: seq<BoutiqueImage>): (r: seq<string>)
    ensures |r| == |rows| && forall i :: 0 <= i < |rows| ==> r[i] == rows[i].imagePath
  {
    seq(|rows|, i requires 0 <= i < |rows| => rows[i].imagePath)
  }

  /** `SELECT MAX(display_order)`: NULL on an empty table. */
  function MaxOrder(rows: seq<BoutiqueImage>): (m: Option<int>)
    ensures m.None? <==> rows == []
    ensures m.Some? ==> forall i :: 0 <= i < |rows| ==> rows[i].displayOrder <= m.value
    ensures m.Some? ==> exists i :: 0 <= i < |rows| && rows[i].displayOrder == m.value
  {
    if rows == [] then None
    else
      var rest := MaxOrder(rows[1..]);
      assert forall i :: 1 <= i < |rows| ==> rows[i] == rows[1..][i - 1];
      if rest.None? || rows[0].displayOrder >= rest.value then Some(rows[0].displayOrder) else rest
  }

  /** `(maxOrder || 0) + 1`: one past the largest order, 1 on an empty table
      (or when the largest order is 0). */
  function NextOrder(rows: seq<BoutiqueImage>): (n: int)
    ensures rows == [] ==> n == 1
    ensures forall i :: 0 <= i < |rows| ==> rows[i].displayOrder < n || (rows[i].displayOrder == 0 && n == 1)
  {
    IntOr(MaxOrder(rows), 0) + 1
  }

  /** The stored paths of uploaded or listed file names. */
  function GalleryPaths(names: seq<string>): (r: seq<string>)
    ensures |r| == |names| && forall k :: 0 <= k < |names| ==> r[k] == GalleryPath(names[k])
  {
    seq(|names|, k requires 0 <= k < |names| => GalleryPath(names[k]))
  }

  function NotStored(existing: seq<string>): string -> bool {
    (path: string) => path !in existing
  }

  /** The image files of a directory listing, in listing order. */
  function ImageFiles(files: seq<string>): seq<string> {
    Filter(files, IsImageFile)
  }

  /** The paths the sync inserts for the listed image files: those whose
      path was not stored when the sync began (`existingPaths` is read once,
      before the loop). */
  function MissingPaths(existing: seq<string>, imageFiles: seq<string>): seq<string> {
    Filter(GalleryPaths(imageFiles), NotStored(existing))
  }

  /** The rows the sync inserts: consecutive ids and display orders. */
  function SyncRows(paths: seq<string>, firstId: int, start: int): (r: seq<BoutiqueImage>)
    ensures |r| == |paths|
    ensures forall k :: 0 <= k < |r| ==> r[k] == BoutiqueImage(firstId + k, paths[k], start + k)
  {
    seq(|paths|, k requires 0 <= k < |paths| => BoutiqueImage(firstId + k, paths[k], start + k))
  }

  /** The table after the sync loop has run over `imageFiles`. */
  function Synced(rows: seq<BoutiqueImage>, imageFiles: seq<string>, firstId: int): seq<BoutiqueImage> {
    rows + SyncRows(MissingPaths(StoredPaths(rows), imageFiles), firstId, NextOrder(rows))
  }

  lemma MissingPathsSnoc(existing: seq<string>, imageFiles: seq<string>, file: string)
    ensures MissingPaths(existing, imageFiles + [file])
            == MissingPaths(existing, imageFiles) + if GalleryPath(file) !in existing then [GalleryPath(file)] else []
  {
    assert GalleryPaths(imageFiles + [file]) == GalleryPaths(imageFiles) + [GalleryPath(file)];
    FilterAppend(GalleryPaths(imageFiles), [GalleryPath(file)], NotStored(existing));
    assert [GalleryPath(file)][1..] == [];
  }

  lemma SyncRowsSnoc(paths: seq<string>, path: string, firstId: int, start: int)
    ensures SyncRows(paths + [path], firstId, start)
            == SyncRows(paths, firstId, start) + [BoutiqueImage(firstId + |paths|, path, start + |paths|)]
  {
  }

  /** The table once the sync loop has handled the first files. */
  function Imported(rows: seq<BoutiqueImage>, existing: seq<string>, files: seq<string>, firstId: int, start: int)
    : seq<BoutiqueImage>
  {
    rows + SyncRows(MissingPaths(existing, files), firstId, start)
  }

  /** The sync's `for` loop over the image files. */
  method ImportFiles(rows: seq<BoutiqueImage>, imageFiles: seq<string>, firstId: int)
    returns (table: seq<BoutiqueImage>, added: nat)
    ensures added == |MissingPaths(StoredPaths(rows), imageFiles)|
    ensures table == Synced(rows, imageFiles, firstId)
  {
    var existing := StoredPaths(rows);
    var start := NextOrder(rows);
    table := rows;
    added := 0;
    var currentOrder := start;
    var index := 0;
    assert imageFiles[..0] == [];
    assert table == Imported(rows, existing, imageFiles[..0], firstId, start);
    while index < |imageFiles|
      invariant 0 <= index <= |imageFiles|
      invariant added == |MissingPaths(existing, imageFiles[..index])|
      invariant currentOrder == start + added
      invariant table == Imported(rows, existing, imageFiles[..index], firstId, start)
    {
      var path := GalleryPath(imageFiles[index]);
      ImportStep(rows, existing, imageFiles, index, firstId, start);
      if path !in existing {
        table := table + [BoutiqueImage(firstId + added, path, currentOrder)];
        currentOrder := currentOrder + 1;
        added := added + 1;
      }
      index := index + 1;
    }
    assert imageFiles[..|imageFiles|] == imageFiles;
  }

  /** One turn of the sync loop, stated on values: a path not
      stored before the loop adds one row with the next id and order. */
  lemma ImportStep(rows: seq<BoutiqueImage>, existing: seq<string>, imageFiles: seq<string>, index: nat,
                   firstId: int, start: int)
    requires index < |imageFiles|
    ensures var n := |MissingPaths(existing, imageFiles[..index])|;
            var path := GalleryPath(imageFiles[index]);
            var before := Imported(rows, existing, imageFiles[..index], firstId, start);
            var after := Imported(rows, existing, imageFiles[..index + 1], firstId, start);
            (path !in existing ==>
               |MissingPaths(existing, imageFiles[..index + 1])| == n + 1
               && after == before + [BoutiqueImage(firstId + n, path, start + n)])
            && (path in existing ==>
                  |MissingPaths(existing, imageFiles[..index + 1])| == n && after == before)
  {
    var file := imageFiles[index];
    var path := GalleryPath(file);
    var prefix := imageFiles[..index];
    var missing := MissingPaths(existing, prefix);
    assert imageFiles[..index + 1] == prefix + [file];
    var grown := MissingPaths(existing, prefix + [file]);
    assert grown == missing + if path !in existing then [path] else [] by {
      MissingPathsSnoc(existing, prefix, file);
    }
    if path !in existing {
      var synced := SyncRows(missing, firstId, start);
      var row := BoutiqueImage(firstId + |missing|, path, start + |missing|);
      assert SyncRows(grown, firstId, start) == synced + [row] by {
        SyncRowsSnoc(missing, path, firstId, start);
      }
      assert (rows + synced) + [row] == rows + (synced + [row]);
    } else {
      assert grown == missing;
    }
  }

  /** After a sync every listed path has a row. */
  lemma SyncStoresAll(rows: seq<BoutiqueImage>, imageFiles: seq<string>, firstId: int)
    ensures forall j :: 0 <= j < |imageFiles| ==>
              GalleryPath(imageFiles[j]) in StoredPaths(Synced(rows, imageFiles, firstId))
  {
    var existing := StoredPaths(rows);
    var missing := MissingPaths(existing, imageFiles);
    var stored := StoredPaths(Synced(rows, imageFiles, firstId));
    var all := GalleryPaths(imageFiles);
    forall j | 0 <= j < |imageFiles| ensures GalleryPath(imageFiles[j]) in stored {
      var path := all[j];
      if path in existing {
        var i :| 0 <= i < |rows| && existing[i] == path;
        assert stored[i] == path;
      } else {
        assert NotStored(existing)(path);
        assert path in missing;
        var m :| 0 <= m < |missing| && missing[m] == path;
        assert stored[|rows| + m] == path;
      }
    }
  }

  /** After a sync of a directory listing every image file in it has a row. */
  lemma SyncCoversDirectory(rows: seq<BoutiqueImage>, files: seq<string>, firstId: int)
    ensures forall j :: 0 <= j < |files| && IsImageFile(files[j]) ==>
              GalleryPath(files[j]) in StoredPaths(Synced(rows, ImageFiles(files), firstId))
  {
    var images := ImageFiles(files);
    SyncStoresAll(rows, images, firstId);
    forall j | 0 <= j < |files| && IsImageFile(files[j])
      ensures GalleryPath(files[j]) in StoredPaths(Synced(rows, images, firstId))
    {
      assert files[j] in images;
      var k :| 0 <= k < |images| && images[k] == files[j];
    }
  }

  /** A second sync of the same directory adds nothing. */
  lemma SyncIdempotent(rows: seq<BoutiqueImage>, imageFiles: seq<string>, firstId: int, nextId: int)
    ensures Synced(Synced(rows, imageFiles, firstId), imageFiles, nextId) == Synced(rows, imageFiles, firstId)
  {
    var table := Synced(rows, imageFiles, firstId);
    SyncStoresAll(rows, imageFiles, firstId);
    var paths := GalleryPaths(imageFiles);
    forall j | 0 <= j < |paths| ensures !NotStored(StoredPaths(table))(paths[j]) {
      assert paths[j] == GalleryPath(imageFiles[j]);
    }
    FilterNone(paths, NotStored(StoredPaths(table)));
  }

  /** The sync appends: the stored rows stay as they were, first, and each
      new row holds a listed path that was not stored. */
  lemma SyncAppendsNewImages(rows: seq<BoutiqueImage>, imageFiles: seq<string>, firstId: int)
    ensures Synced(rows, imageFiles, firstId)[..|rows|] == rows
    ensures forall k :: |rows| <= k < |Synced(rows, imageFiles, firstId)| ==>
              Synced(rows, imageFiles, firstId)[k].imagePath !in StoredPaths(rows)
              && Synced(rows, imageFiles, firstId)[k].imagePath in GalleryPaths(imageFiles)
  {
    var missing := MissingPaths(StoredPaths(rows), imageFiles);
    var table := Synced(rows, imageFiles, firstId);
    assert table[..|rows|] == rows;
    forall k | |rows| <= k < |table|
      ensures table[k].imagePath !in StoredPaths(rows) && table[k].imagePath in GalleryPaths(imageFiles)
    {
      assert table[k].imagePath == missing[k - |rows|];
      assert NotStored(StoredPaths(rows))(missing[k - |rows|]);
    }
  }

  function ByOrder(img: BoutiqueImage): int {
    img.displayOrder
  }

  function NotRow(id: int): BoutiqueImage -> bool {
    (img: BoutiqueImage) => img.id != id
  }

  /** `UPDATE boutique_images SET display_order = ? WHERE id = ?`. */
  function SetOrder(rows: seq<BoutiqueImage>, id: int, order: int): (r: seq<BoutiqueImage>)
    ensures |r| == |rows|
    ensures forall i :: 0 <= i < |r| ==> r[i] == if rows[i].id == id then rows[i].(displayOrder := order) else rows[i]
  {
    seq(|rows|, i requires 0 <= i < |rows| => if rows[i].id == id then rows[i].(displayOrder := order) else rows[i])
  }

  /** One entry of the reorder body. */
  datatype OrderEntry = OrderEntry(id: int, displayOrder: int)

  datatype ReorderBody = NotArray | Entries(entries: seq<OrderEntry>)

  /** The reorder's updates, in list order. */
  function ApplyOrders(rows: seq<BoutiqueImage>, entries: seq<OrderEntry>): (r: seq<BoutiqueImage>)
    ensures |r| == |rows|
    ensures forall i :: 0 <= i < |r| ==> r[i].id == rows[i].id && r[i].imagePath == rows[i].imagePath
  {
    if entries == [] then rows
    else
      var n := |entries| - 1;
      SetOrder(ApplyOrders(rows, entries[..n]), entries[n].id, entries[n].displayOrder)
  }

  /** With distinct ids in the body, each listed image gets its order. */
  lemma {:induction false} ApplyOrdersSetsListed(rows: seq<BoutiqueImage>, entries: seq<OrderEntry>, k: nat, i: nat)
    requires forall a, b :: 0 <= a < b < |entries| ==> entries[a].id != entries[b].id
    requires k < |entries| && i < |rows| && rows[i].id == entries[k].id
    ensures ApplyOrders(rows, entries)[i].displayOrder == entries[k].displayOrder
  {
    var n := |entries| - 1;
    if k < n {
      var front := entries[..n];
      assert front[k] == entries[k];
      ApplyOrdersSetsListed(rows, front, k, i);
      assert entries[n].id != entries[k].id;
    }
  }

  /** An image the body does not list keeps its order. */
  lemma {:induction false} ApplyOrdersKeepsUnlisted(rows: seq<BoutiqueImage>, entries: seq<OrderEntry>, i: nat)
    requires i < |rows|
    requires forall k :: 0 <= k < |entries| ==> entries[k].id != rows[i].id
    ensures ApplyOrders(rows, entries)[i] == rows[i]
  {
    if entries != [] {
      var front := entries[..|entries| - 1];
      assert forall k :: 0 <= k < |front| ==> front[k] == entries[k];
      ApplyOrdersKeepsUnlisted(rows, front, i);
    }
  }

  /** The `image` field of the upload form; the gallery's upload filter
      and size limit are the product uploads' ones. */
  datatype SingleUpload = NoFile | File(upload: AdminRoutes.Upload)

  /** The boutique_images table with its id counter. */
  class Gallery {
    var rows: seq<BoutiqueImage>
    var nextId: int

    predicate Valid()
      reads this
    {
      forall i :: 0 <= i < |rows| ==> rows[i].id < nextId
    }

    constructor()
      ensures Valid() && rows == [] && nextId == 1
    {
      rows := [];
      nextId := 1;
    }

    /** `GET /images`: import the directory's new image files (skipped when
        the directory cannot be read), then every row in display order. */
    method Images(directory: Option<seq<string>>) returns (listing: seq<BoutiqueImage>)
      requires Valid()
      modifies this
      ensures Valid()
      ensures directory.None? ==> rows == old(rows) && nextId == old(nextId)
      ensures directory.Some? ==>
                rows == Synced(old(rows), ImageFiles(directory.value), old(nextId))
                && nextId == old(nextId) + |MissingPaths(StoredPaths(old(rows)), ImageFiles(directory.value))|
      ensures multiset(listing) == multiset(rows) && SortedBy(listing, ByOrder)
    {
      if directory.Some? {
        var table, added := ImportFiles(rows, ImageFiles(directory.value), nextId);
        rows := table;
        nextId := nextId + added;
      }
      listing := SortBy(rows, ByOrder);
    }

    /** `POST /images`: 401 without a session; a file the filter refuses or
        over 5 MB is an upload error the router answers with 500; 400
        without a file; otherwise the image is stored after the others. */
    method Add(session: Session, upload: SingleUpload) returns (r: Result<BoutiqueImage>)
      requires Valid()
      modifies this
      ensures Valid()
      ensures !IsAdmin(session) ==> r == Err(Unauthorized)
      ensures IsAdmin(session) && upload.File? && !AdminRoutes.UploadFits(upload.upload) ==> r == Err(ServerError)
      ensures IsAdmin(session) && upload.NoFile? ==> r == Err(BadRequest)
      ensures r.Err? ==> rows == old(rows) && nextId == old(nextId)
      ensures IsAdmin(session) && upload.File? && AdminRoutes.UploadFits(upload.upload) ==>
                var img := BoutiqueImage(old(nextId), GalleryPath(upload.upload.storedName), NextOrder(old(rows)));
                r == Ok(img) && rows == old(rows) + [img] && nextId == old(nextId) + 1
    {
      if !IsAdmin(session) {
        return Err(Unauthorized);
      }
      if upload.File? && !AdminRoutes.UploadFits(upload.upload) {
        return Err(ServerError);
      }
      if upload.NoFile? {
        return Err(BadRequest);
      }
      var img := BoutiqueImage(nextId, GalleryPath(upload.upload.storedName), NextOrder(rows));
      rows := rows + [img];
      nextId := nextId + 1;
      r := Ok(img);
    }

    /** `DELETE /images/:id`: 404 for an unknown id; otherwise the row goes,
        whether or not the file could be removed. */
    method Delete(session: Session, id: int, unlinkFails: bool) returns (r: Result<()>)
      requires Valid()
      modifies this`rows
      ensures Valid()
      ensures !IsAdmin(session) ==> r == Err(Unauthorized)
      ensures IsAdmin(session) && (forall i :: 0 <= i < |old(rows)| ==> old(rows)[i].id != id) ==> r == Err(NotFound)
      ensures r.Err? ==> rows == old(rows)
      ensures IsAdmin(session) && (exists i :: 0 <= i < |old(rows)| && old(rows)[i].id == id) ==>
                r == Ok(()) && rows == Filter(old(rows), NotRow(id))
    {
      if !IsAdmin(session) {
        return Err(Unauthorized);
      }
      var k := FindIndex(rows, (img: BoutiqueImage) => img.id == id);
      if k < 0 {
        return Err(NotFound);
      }
      rows := Filter(rows, NotRow(id));
      r := Ok(());
    }

    /** `PUT /images/reorder`: 400 unless the body holds an array; otherwise
        each entry's order is written in turn. */
    method Reorder(session: Session, body: ReorderBody) returns (r: Result<()>)
      requires Valid()
      modifies this`rows
      ensures Valid()
      ensures !IsAdmin(session) ==> r == Err(Unauthorized) && rows == old(rows)
      ensures IsAdmin(session) && body.NotArray? ==> r == Err(BadRequest) && rows == old(rows)
      ensures IsAdmin(session) && body.Entries? ==> r == Ok(()) && rows == ApplyOrders(old(rows), body.entries)
    {
      if !IsAdmin(session) {
        return Err(Unauthorized);
      }
      if body.NotArray? {
        return Err(BadRequest);
      }
      rows := ApplyOrders(rows, body.entries);
      r := Ok(());
    }
  }
}
