/** HTTP outcomes of the handlers. Database failures (status 500) are not
    part of this model. */
module Http {

  datatype Status = Ok | BadRequest | Unauthorized | Forbidden | NotFound
}
