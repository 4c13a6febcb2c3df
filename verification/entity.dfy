/**
 * The media the slider shows: a kind and a locator, compared by value
 * (the slider relies on `tag == media` being value equality).
 */
module Entity {

  datatype MediaType = IMAGE | VIDEO

  datatype Media = Media(mediaType: MediaType, uri: string)
}
