/** Decoded images, pixmaps and the application's image list entries. */
module Images {
  import opened Wrappers

  /** A decoded image (an OpenCV array): its size and the bytes `tobytes` gives. */
  datatype Image = Image(width: int, height: int, pixels: seq<bv8>)

  /** A `QPixmap`: its PNG encoding, which `pixmap_md5` hashes, and the image `pixmap_to_cv` gives. */
  datatype Pixmap = Pixmap(png: seq<bv8>, image: Image)

  /** One result of the YOLO detector: its class (2 a frame, 3 a text box) and its corners. */
  datatype Detection = Detection(cls: int, x1: int, y1: int, x2: int, y2: int)

  /** `ImageItem`: a file path ("" for None), a display name, and a pixmap when the image was pasted. */
  datatype ImageItem = ImageItem(path: string, name: string, pixmap: Option<Pixmap>)
}
