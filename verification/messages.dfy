/**
 * The change messages the node and edge components dispatch on `document`
 * (`nodeDataChange`, `edgeDataChange`, `edgeDelete`). The receiver that applies
 * them to the shared document is not part of this model.
 */
module Messages {

  /** The `data` fields a node component asks to merge into its node. */
  datatype NodePatch =
    | UrlPatch(url: string)                 // image node: `{ url }`
    | TextPatch(text: string)               // sticky note and shape: `{ text }`
    | RichTextPatch(html: string, text: string)  // text node: `{ html, text }`

  /** The `data` fields an edge component asks to merge into its edge. */
  datatype EdgePatch =
    | LabelPatch(labelText: string)         // `{ label }`
    | PathTypePatch(pathType: string)       // `{ pathType }`

  datatype Message =
    | NodeDataChange(nodeId: string, nodePatch: NodePatch)
    | EdgeDataChange(edgeId: string, edgePatch: EdgePatch)
    | EdgeDelete(deletedId: string)
}
