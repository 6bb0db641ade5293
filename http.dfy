/** What a handler writes to its `http.ResponseWriter`, without the HTML or the headers. */
module Http {
  import opened Pages

  datatype Response =
    | Render(template: string, page: Page)  // renderTemplate with the named template
    | Redirect(location: string)            // http.Redirect, status 302
    | ServerError                           // http.Error, status 500
    | NotFound                              // http.NotFound, status 404
}
