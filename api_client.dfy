/** `APIClient.getImageUrl` of `scripts/api.js`: the URL an `<img>` gets for
    an image path that came from the API. */
module ApiClient {
  import opened Wrappers
  import opened JsText
  import opened JsValues
  import ImageService

  /** `API_CONFIG.baseURL` */
  const BaseUrl: string := "http://localhost:8000/api/v1"
  /** `this.baseURL.replace('/api/v1', '')` */
  const BackendOrigin: string := "http://localhost:8000"
  const Placeholder: string := "../assets/imagenes/placeholder-vehicle.jpg"

  /** A path the backend serves from its static mount. */
  predicate IsStaticPath(s: string) {
    StartsWith(s, "/static") || StartsWith(s, "static")
  }

  /** `getImageUrl(imagePath)`: the placeholder for a falsy argument, a URL
      starting with "http" as it is, a static path under the backend origin
      with one leading slash dropped, any other string as it is. A truthy
      value that is not a string has no `startsWith`, so the call throws. */
  function GetImageUrl(imagePath: JsValue): (r: Result<string, string>)
    ensures r.Err? <==> Truthy(imagePath) && !imagePath.Str?
    ensures !Truthy(imagePath) ==> r == Ok(Placeholder)
    ensures imagePath.Str? && Truthy(imagePath) && !IsStaticPath(imagePath.s) ==> r == Ok(imagePath.s)
    ensures imagePath.Str? && IsStaticPath(imagePath.s) && !StartsWith(imagePath.s, "http") ==>
      r == Ok(BackendOrigin + "/" + DropLeadingSlash(imagePath.s))
  {
    if !Truthy(imagePath) then Ok(Placeholder)
    else if !imagePath.Str? then Err("imagePath.startsWith is not a function")
    else
      var p := imagePath.s;
      if StartsWith(p, "http") then Ok(p)
      else if IsStaticPath(p) then Ok(BackendOrigin + "/" + DropLeadingSlash(p))
      else Ok(p)
  }

  /** Every URL the function returns for a string is returned unchanged
      when fed back: the mapping is idempotent. */
  lemma GetImageUrlIdempotent(p: string)
    ensures var r := GetImageUrl(Str(p)); r.Ok? && GetImageUrl(Str(r.value)) == r
  {
    var r := GetImageUrl(Str(p));
    if p != "" && !StartsWith(p, "http") && IsStaticPath(p) {
      assert StartsWith(r.value, "http") by {
        assert r.value[..4] == BackendOrigin[..4];
      }
    } else if p == "" {
      assert Placeholder[0] == '.' && "http"[0] == 'h' && "static"[0] == 's' && "/static"[0] == '/';
    }
  }

  /** The `file_path` the backend stores for an uploaded image becomes the
      backend origin followed by that path. */
  lemma SavedImageUrl(file: ImageService.Upload, uuid: string)
    requires ImageService.SaveImage(file, uuid).Ok?
    ensures var path := ImageService.SaveImage(file, uuid).value.filePath;
      GetImageUrl(Str(path)) == Ok(BackendOrigin + "/" + path)
  {
    var path := ImageService.SaveImage(file, uuid).value.filePath;
    var saved := ImageService.SaveImage(file, uuid).value;
    assert path == ImageService.UploadDir + "/vehicles/" + saved.filename;
    assert path[..6] == ImageService.UploadDir[..6] == "static";
    assert path[0] == 's' && "http"[0] == 'h';
  }
}
