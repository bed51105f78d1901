/**
 * The two constants the core reads from its constants files: the document
 * type of the sample records and the error catalog.
 */
module Constants {
  import opened Errors

  datatype Config = Config(documentTypeData: string, errors: Catalog)
}
